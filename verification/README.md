# Verified model of the file-sharing example

The program lets users register a name at a rendezvous point, list each other's files and download
them over `libp2p-file-get`, a request/response protocol on top of a libp2p swarm. This project
models the protocol, the event loop that correlates commands with requests, and the command syntax,
and proves what holds on every run of them. `dafny verify dfyconfig.toml` checks all of it.

## What is modelled

* **The behaviour** (`FileGetBehaviour.dfy`): the object `FileGet` with its connection vectors, its
  queues of requests waiting for a dial and its queue of actions, written as it is in the source and
  proved equal, method by method, to functions on values (`FileGetModel.dfy`). Those functions are
  characterised by effect lemmas over four views: which connections are known (`Known`), which of our
  own requests a connection tracks (`InIds`), which received requests it tracks (`OutIds`), and what
  is queued for a peer (`Queue`).
* **The handler** (`ConnectionHandler.dfy`, `HandlerModel.dfy`), in the same two forms.
* **One connection** (`Link.dfy`, `InboundRequests.dfy`): the channels between behaviour and handler
  and the substream upgrades in progress. An inbound upgrade is `Receiving` while it holds the request
  sender, `AwaitingReader` while it waits for the response channel, and `Copying` afterwards.
* **The composition** (`Swarm.dfy`): `FileGet`, one handler per connection, the swarm between them
  and an application, as a transition system. A run is any sequence of enabled steps from `START`.
  `OwnRequests.dfy`, `Provenance.dfy` and `ReceivedRequests.dfy` hold its invariants; `Ledger.dfy` the
  flat ledger that it refines; `Runs.dfy`, `Origins.dfy`, `Causes.dfy`, `Overtaking.dfy` and `Progress.dfy`
  the theorems about runs; `Witnesses.dfy` runs on which the unwelcome cases happen.
* **The event loop** (`EventLoop.dfy`, `EventLoopModel.dfy`), again as an object and on values, its
  composition with all of the above (`EndToEnd.dfy`), and what follows for downloads (`Downloads.dfy`),
  for the answer to every command (`Answered.dfy`), for commands that hang (`Unanswered.dfy`) and for the
  requests of others (`ServedRequests.dfy`); `Successes.dfy` has runs on which all goes well.
* **The command syntax** (`CommandGrammar.dfy`), a pure function.

`Basics.dfy` and `Messages.dfy` hold the shared vocabulary. `Pick(key, log)` extracts, in order, the
request ids of those actions in a sequence that answer to a key; `Log` is every action the behaviour
ever enqueued, `Times` counts an id in a list, and `Ends` counts the terminal events of one of our own
requests. The field `issued` of the system records what each request was issued for; no step reads it.

Both id generators start at 1, so the id of an event does not tell whether our request or a received
one is meant. Every event of the model therefore carries an `Origin` tag, which no branch reads.

## What is assumed of the environment

These are the enabling conditions of `Swarm.Enabled`, `Link.LinkEnabled` and `EndToEnd.Enabled`.

* Connection ids are never reused, and `other_established` is the swarm's own count.
* The events of a connection arrive in order, and its close is reported after the last of them.
* A request handed to a connection that is breaking down, or is gone, is dropped.
* Each dial has one result; a connection or a failed dial may also come from elsewhere. Other parts of
  the program may dial the same peer, and peers may connect at any time.
* A substream has at most one outcome. It may fail in any of the three ways the handler tells apart,
  at any time; inbound substreams that settle on another protocol end without an outcome.
* The application may use the response sender of an announced request, keep it, or drop it. An upgrade
  that awaits a response panics when the channel is cancelled, that is when its sender was not used and
  exists nowhere in the system any more. The panic takes the connection down; its close can still be
  reported, as after any other failure.
* Polling the unordered set of inbound channels yields any one that is ready or cancelled, or nothing.
* Fewer than 2^64 - 1 ids of either kind are drawn, and `usize` has 64 bits. What happens past that
  bound is `Basics.DrawsCollideIff`.
* Whether a name is a valid namespace and whether a file or directory can be opened are parameters of
  the event loop. An I/O error ends the loop, and the state in which it ends has no further steps.
* The client draws command ids from 0, and the list-files protocol never repeats a request id.

## Where the code departs from its documentation

* `on_connection_closed` reports the two id sets the wrong way round (file-get/src/lib.rs:362-382):
  our own requests as `InboundFailure`, received ones as `OutboundFailure`, against the error texts
  at lines 144-145 and 157-158 and every other arm. The model keeps the code. `Runs.PairedIffNotClosed`
  and `Runs.ClosePairsIffIdle` say exactly when the types of the events can be trusted.
* An inbound timeout can be reported before the request it ends, because a handler reports outcomes
  first. Such a request is tracked until its connection closes and is then reported a second time.
  `Overtaking.ReceivedAccount` gives the exact count and `Overtaking.OvertakingHappens` such a run.
* The error text at file-get/src/lib.rs:163-165 promises that a dropped response sender is reported as an
  omitted response. Instead the upgrade panics at its expect (file-get/src/protocol.rs:100), on exactly
  those occasions: `Runs.UpgradePanicsIffDropped`, `Witnesses.UpgradePanics`. The event loop itself drops
  the sender when it cannot open the file it is asked for (src/network/mod.rs:453-455):
  `ServedRequests.DroppedIffOpenFails`, `ServedRequests.MissingFilePanics`.
* The event loop ignores failures of downloads and only logs those of listings (src/network/mod.rs:442-447
  and 487), so the command behind a failed request is never answered: `Unanswered.DownloadPendingIff` and
  `Unanswered.ListingPendingIff` say exactly which commands stay pending, `Unanswered.DownloadHangs` gives
  a run.
* A file name that contains `->` cannot be asked for; it is cut at the arrow
  (`CommandGrammar.FileNameIsCutAtArrow`). Exactly the commands that survive are described by
  `CommandGrammar.RoundTripIff`.
* `ResponseOmission` (file-get/src/lib.rs:560-576) is never produced, because an upgrade without a sender
  panics before it could report one, and the arm at lines 516-525 is never taken, on any run. Both are in
  the model all the same.

## Model

| member | source | states |
|---|---|---|
| `Basics.DrawsCollideIff` | file-get/src/lib.rs:191-199 | two draws from a wrapping 64-bit generator give the same id exactly when they are a multiple of 2^64 draws apart |
| `FileGetBehaviour.RequestIdGenerator.NextId` | file-get/src/lib.rs:196-198 | hands out the counter and advances it with wrap-around |
| `FileGetBehaviour.FileGet.FromConfig` | file-get/src/lib.rs:212-222 | nothing is connected, queued or enqueued, and two separate generators start at 1 |
| `FileGetBehaviour.FileGet.SendRequest` | file-get/src/lib.rs:225-257 | the object does what the value model does; see SendRequestEffect |
| `FileGetBehaviour.FileGet.TrySendRequest` | file-get/src/lib.rs:285-307 | the object does what the value model does; see TrySendEffect |
| `FileGetBehaviour.FileGet.OnConnectionEstablished` | file-get/src/lib.rs:309-337 | the drain loop does what the recursive drain does; see EstablishedEffect |
| `FileGetBehaviour.FileGet.OnConnectionClosed` | file-get/src/lib.rs:339-383 | both loops report their hash set in some order, each id once; see ClosedEffect |
| `FileGetBehaviour.FileGet.OnDialFailure` | file-get/src/lib.rs:412-427 | the loop fails the whole queue of the peer; see DialFailureEffect |
| `FileGetBehaviour.FileGet.RemovePendingInboundResponse` | file-get/src/lib.rs:429-440 | removes one of our ids from the one connection named and says whether it was there |
| `FileGetBehaviour.FileGet.RemovePendingOutboundResponse` | file-get/src/lib.rs:442-453 | removes one received id from the one connection named and says whether it was there |
| `FileGetBehaviour.FileGet.OnConnectionHandlerEvent` | file-get/src/lib.rs:485-626 | the object does what the value model does and reports the value of the debug assertion; see HandlerEventEffect |
| `FileGetBehaviour.FileGet.Poll` | file-get/src/lib.rs:628-640 | yields the actions first in, first out |
| `FileGetModel.TrySendEffect` | file-get/src/lib.rs:285-307 | a request for a connected peer is tracked by connection number id mod count, handed to it, and changes no other connection |
| `FileGetModel.SendRequestEffect` | file-get/src/lib.rs:225-257 | the new id is tracked by the target connection and handed over, or, without a connection, queued last behind a dial |
| `FileGetModel.DrainEffect` | file-get/src/lib.rs:331-335 | draining onto the only connection hands over every request in order, although the result of each attempt is ignored |
| `FileGetModel.EstablishedEffect` | file-get/src/lib.rs:309-337 | a new connection tracks exactly what was queued for its peer, the queue is gone, and no other connection changes |
| `FileGetModel.FurtherConnectionEffect` | file-get/src/lib.rs:324-330 | a connection beside others starts with nothing and leaves the queue alone |
| `FileGetModel.ClosedEffect` | file-get/src/lib.rs:339-383 | closing removes one connection with its two sets, leaves every other view unchanged, and enqueues one failure per id |
| `FileGetModel.DialFailureEffect` | file-get/src/lib.rs:412-427 | a failed dial fails exactly the queued requests of its peer, in order, and touches no connection |
| `FileGetModel.HandlerEventEffect` | file-get/src/lib.rs:485-626 | an event of a known connection moves its id in one set of that connection only, and is reported once |
| `FileGetModel.RemovalTells` | file-get/src/lib.rs:429-453 | a removal says that the id was there if and only if the named connection tracked it |
| `FileGetModel.AssertionHoldsIffTracked` | file-get/src/lib.rs:528-566 | each debug assertion holds if and only if the id is tracked in the set it is removed from |
| `FileGetModel.UnknownConnectionEffect` | file-get/src/lib.rs:508-526 | an event of a connection that is not known is reported and tracked nowhere; a request is reported as failed at once |
| `FileGetModel.PollsYieldActionsInOrder` | file-get/src/lib.rs:628-640 | polling yields every action once, in the order of enqueueing, and then nothing |
| `Dispatch.DispatchIsBalanced` | file-get/src/lib.rs:294-296 | of n consecutive requests each of k connections gets floor(n/k), and the n mod k whose turn comes first get one more |
| `ConnectionHandler.Handler.constructor` | file-get/src/handler.rs:46-56 | a new handler is empty, kept alive, and shares the given generator |
| `ConnectionHandler.Handler.ListenProtocol` | file-get/src/handler.rs:115-127 | a fresh inbound id and one waiting request channel for it |
| `ConnectionHandler.Handler.OnBehaviourEvent` | file-get/src/handler.rs:129-132 | the object does what the value model does; see RequestIsAskedForLast |
| `ConnectionHandler.Handler.OnConnectionEvent` | file-get/src/handler.rs:134-193 | the object does what the value model does; see OutcomeIsTold and ExpiryCloses |
| `ConnectionHandler.Handler.Poll` | file-get/src/handler.rs:199-246 | the object does what the value model does; see PollsDrainTheBacklog and KeepAliveOverRuns |
| `HandlerModel.PollsDrainTheBacklog` | file-get/src/handler.rs:210-227 | polling yields the pending error, then all events, then all requests, each in order of arrival |
| `HandlerModel.RequestIsAskedForLast` | file-get/src/handler.rs:129-132 | a request is asked for right after everything the handler already had to say |
| `HandlerModel.OutcomeIsTold` | file-get/src/handler.rs:134-193 | the outcome of a substream is told, as an event of its direction about its id, after the pending error and all earlier events and before the requests, none of which is lost |
| `HandlerModel.ExpiryCloses` | file-get/src/handler.rs:175-188 | any other upgrade error closes the connection at the next poll; the rest of what was waiting stays in place |
| `HandlerModel.OutcomesKeepTheRest` | file-get/src/handler.rs:134-193 | no outcome touches keep-alive, inbound channels or outbound requests, and a new address changes nothing |
| `HandlerModel.NoRequestWaitsWhileExpiring` | file-get/src/handler.rs:129-132 | at no point of any run does a request wait in a handler whose connection is allowed to expire |
| `HandlerModel.KeepAliveOverRuns` | file-get/src/handler.rs:229-245 | on every run a kept-alive connection gets the deadline d if and only if a poll with d yields nothing and leaves nothing to report, send or receive; from then on the deadline stays until a request takes it back |
| `HandlerModel.QueuedEventsAreNotRequests` | file-get/src/handler.rs:134-193 | received requests never pass through the event queue |
| `Link.LinkStepKeepsRequests` | file-get/src/handler.rs:129-245 | whatever a connection does, every id of ours stays accounted for once, dropped ones included, and the requests keep their files and their order |
| `InboundRequests.LinkStepKeepsInbound` | file-get/src/protocol.rs:93-104 | every step of a connection, a panic included, keeps the account of received requests: announced once, one outcome, and a sender that left the connection left it by an announcement |
| `InboundRequests.DeliveryKeepsInbound` | file-get/src/lib.rs:493-559 | processing the oldest event of a connection keeps that account |
| `Swarm.StepEffect` | file-get/src/lib.rs:225-626 | every step but a poll only appends to the log, and appends exactly the actions named for it |
| `Swarm.PollEffect` | file-get/src/lib.rs:628-640 | a poll moves the oldest action to the polled ones and leaves the log as it is |
| `Swarm.StructureKept` | file-get/src/lib.rs:324-360 | the connections known to the behaviour stay those of the swarm, no vector is empty, and a peer with queued requests has no connection |
| `OwnRequests.OrderedKept` | file-get/src/lib.rs:242-337 | the requests handed over to a peer, followed by its queue, stay in increasing order of their ids |
| `OwnRequests.AccountedKept` | file-get/src/lib.rs:285-307 | each request tracked by a connection stays in exactly one place, and untracked ones in none |
| `OwnRequests.InFlowKept` | file-get/src/handler.rs:129-132 | what an open connection has asked for, holds and has not yet been given is what was handed over to it, in order |
| `OwnRequests.DialingKept` | file-get/src/lib.rs:242-254 | while requests are queued for a peer, a dial for it is enqueued or under way |
| `OwnRequests.OwnInvKept` | file-get/src/lib.rs:225-626 | every step keeps the whole account of our own requests |
| `Provenance.FaithfulKept` | file-get/src/lib.rs:225-626 | no step changes the peer or the file of a request, wherever a copy of it is |
| `ReceivedRequests.SenderIsInOnePlace` | file-get/src/handler.rs:117-125 | the response sender an upgrade awaits is in exactly one place: inside its connection, in an event of the behaviour, with the application, used, or dropped |
| `ReceivedRequests.ReceivedInvKept` | file-get/src/lib.rs:493-624 | every step keeps the whole account of received requests |
| `Ledger.StepRefinesEntry` | file-get/src/lib.rs:225-626 | every step of the system is one legal entry of a flat ledger, or a stutter |
| `Ledger.LedgerIsUnique` | file-get/src/lib.rs:201-209 | the nested state determines the ledger |
| `Runs.InvKept` | file-get/src/lib.rs:225-626 | every step of the composed system keeps the joint invariant |
| `Runs.NoPanic` | file-get/src/lib.rs:347-356 | on no run does an expect of the close path or any of the three debug assertions (lines 531, 547, 563) fail |
| `Runs.RunsRefineLedger` | file-get/src/lib.rs:201-209 | every run is a run of the ledger, from the empty ledger on |
| `Runs.ExactlyOnce` | file-get/src/lib.rs:225-257 | at every point of every run an issued id is queued for one peer, or tracked by one connection, or has exactly one terminal event, and the peer is the one it was issued for; other ids are nowhere |
| `Runs.EndedForGood` | file-get/src/lib.rs:528-599 | a request that ended once has one terminal event for good and is never queued or tracked again |
| `Runs.TrackedIsInOnePlace` | file-get/src/lib.rs:294-303 | a tracked id is in exactly one of: action queue, channel to the handler, handler queue, substream, outcome on its way, dropped; an untracked one in none |
| `Runs.HandedOverInOrder` | file-get/src/lib.rs:242-254 | requests of a peer are handed over in increasing id order across queueing, draining, dial failure and reconnection |
| `Runs.SubstreamsInOrder` | file-get/src/handler.rs:220-224 | a handler asks for substreams in increasing id order, for a prefix of what was handed over to it |
| `Runs.QueuedIsDialed` | file-get/src/lib.rs:242-254 | a peer with queued requests has no connection and a dial enqueued or under way; no connection vector is empty |
| `Runs.ResponsesFollowRequests` | file-get/src/lib.rs:544-559 | a response is reported as sent only after its request was announced from the same peer, once, and never together with another end of it |
| `Runs.SenderIsSomewhere` | file-get/src/protocol.rs:95-100 | on every run, an awaited response sender is in exactly one of the five places |
| `Runs.UpgradePanicsIffDropped` | file-get/src/protocol.rs:100 | on every run, the expect of an awaiting upgrade can fail if and only if the application dropped its sender, and it gets a reader if and only if the sender was used |
| `Runs.CrashedWasDropped` | file-get/src/protocol.rs:100 | an upgrade that has panicked had its sender dropped |
| `Witnesses.UpgradePanics` | file-get/src/protocol.rs:95-100 | a concrete run on which an upgrade panics |
| `Origins.CopiesAreFaithful` | file-get/src/lib.rs:235-251 | on every run, each copy of a request, in any queue, action, channel, handler or substream, asks the peer and names the file of the call that issued its id |
| `Origins.EventsNameThePeerAsked` | file-get/src/lib.rs:528-599 | every event about one of our requests names the peer that its call asked |
| `Origins.ResponseFollowsOnConnection` | file-get/src/handler.rs:115-127 | a response sent is processed only after its request was, on the same connection |
| `Origins.AnnouncedAsAsked` | file-get/src/protocol.rs:95-98 | an announced request names the file that the remote peer asked for, on a connection to that peer |
| `Causes.EventsHaveReasons` | file-get/src/lib.rs:339-626 | every event for the application goes back to one step of its kind: a handler event, a failed dial of a queued request, or the close of a connection that tracked the id, each concerning the peer and the id that the event names |
| `Causes.ProcessingIsReported` | file-get/src/lib.rs:485-626 | every handler event processed is reported as exactly one event with that reason |
| `Causes.ProcessedIsTracked` | file-get/src/lib.rs:528-566 | on every run a response, received or sent, is of a request tracked for its connection, and no omission is ever processed |
| `Causes.HeardHappened` | file-get/src/handler.rs:134-193 | whatever the behaviour hears of a connection is the outcome, of that very kind, of a substream of that connection |
| `Causes.TheirsNameTheirPeer` | file-get/src/lib.rs:362-371 | every event about a received request names the peer of the connection that was given its id |
| `Causes.TheirsNameOnePeer` | file-get/src/lib.rs:493-624 | the announcement and all reported ends of a received request name the same peer |
| `Causes.BreaksDownIff` | file-get/src/handler.rs:210-212 | a connection breaks down if and only if it fails, an upgrade panics or a poll meets the pending error, and never recovers |
| `Causes.WaitsIffReceiving` | file-get/src/handler.rs:115-127 | a handler waits for a request if and only if the upgrade of its substream is receiving one |
| `Runs.PairedIffNotClosed` | file-get/src/lib.rs:577-624 | on every run an event has the failure type of its origin if and only if it does not report a closed connection |
| `Runs.ClosePairsIffIdle` | file-get/src/lib.rs:362-382 | closing a connection keeps that pairing if and only if both of its sets are empty |
| `Witnesses.CloseMislabels` | file-get/src/lib.rs:373-382 | a concrete run on which one of our own requests is reported as an inbound failure |
| `Overtaking.ReceivedAccount` | file-get/src/lib.rs:493-624 | an announced request is tracked by one connection or its end was reported once, with one report too many exactly when its outcome came before its announcement |
| `Overtaking.OvertakingHappens` | file-get/src/handler.rs:214-238 | a concrete run on which a request is overtaken by its own timeout |
| `Progress.RequestsCanEnd` | file-get/src/lib.rs:309-427 | from every state of every run, each issued request can still come to exactly one terminal event |
| `Progress.DroppedIsReportedOnce` | file-get/src/handler.rs:210-212 | whatever a closing connection drops, in the handler or on the way to it, is reported when the close is, not before and never again |
| `EventLoop.EventLoop.constructor` | src/network/mod.rs:109-126 | no command is pending and nothing was answered |
| `EventLoop.EventLoop.HandleCommand` | src/network/mod.rs:215-322 | the object does what the value model does, sends a request through FileGet exactly for a download from a known user, and correlates the id FileGet drew |
| `EventLoop.EventLoop.OnDiscovered` | src/network/mod.rs:365-406 | the three nested and collecting loops do what the value model does for some order of the hash maps |
| `EventLoop.EventLoop.RecordRegistrations` | src/network/mod.rs:369-377 | one entry per registration with an address, later ones overwriting earlier ones |
| `EventLoop.EventLoop.CollectListPeers` | src/network/mod.rs:379-390 | collects all and only the pending ListPeers commands, each once |
| `EventLoop.EventLoop.OnListFilesAnswered` | src/network/mod.rs:426-440 | the object does what the value model does |
| `EventLoop.EventLoop.OnFileReceived` | src/network/mod.rs:457-486 | the object does what the value model does, with a panic where the source has one |
| `EventLoop.EventLoop.HandleEvent` | src/network/mod.rs:326-490 | the object does what the value model does for every kind of event, and records whether it used or dropped the response sender it was given |
| `EventLoopModel.PendingIsDisjointUnion` | src/network/mod.rs:98-103 | the pending commands are the disjoint union of the ListPeers ones and the ranges of the two correlation maps |
| `EventLoopModel.CommandKeepsPartition` | src/network/mod.rs:215-322 | a command with fresh ids keeps both maps bijections onto the pending commands of their kind |
| `EventLoopModel.EventKeepsPartition` | src/network/mod.rs:326-490 | so does every event |
| `EventLoopModel.DiscoveredEffect` | src/network/mod.rs:379-405 | a discovery answers all and only the commands waiting for peers, once each, with the names known after it |
| `EventLoopModel.LastRegistrationWins` | src/network/mod.rs:369-377 | the last registration of a name that has an address decides; without one the name stays as it was |
| `EventLoopModel.CommandOutcomes` | src/network/mod.rs:226-290 | exactly when a command panics or ends the loop, with which error; it then changes nothing |
| `EventLoopModel.EventOutcomes` | src/network/mod.rs:410-486 | exactly when an event panics or ends the loop |
| `EventLoopModel.StrayEventsChangeNothing` | src/network/mod.rs:426-447 | a response nobody waits for, a failure, and a directory that cannot be read change nothing |
| `EndToEnd.WorldInvKept` | src/network/mod.rs:204-212 | every step of event loop, FileGet and swarm together keeps the joint invariant |
| `EndToEnd.NoPanicEndToEnd` | src/network/mod.rs:461-485 | on no run do the two expects or the panic of the event loop, or any expect or debug assertion of the behaviour fail |
| `EndToEnd.AnsweredOnceOrPending` | src/network/mod.rs:392-438 | until a handler fails, each received command is pending or was answered exactly once, never both; others were not answered |
| `EndToEnd.AnswersFitCommands` | src/network/mod.rs:434-482 | a successful answer is of the kind of its command |
| `EndToEnd.DownloadsCorrelate` | src/network/mod.rs:299-311 | the pending downloads are exactly the issued requests whose response was not seen, one for each pending command of that kind |
| `Downloads.PendingWasRequested` | src/network/mod.rs:283-311 | every pending download was requested by an earlier step, for the command it stands for, from the peer its user was known as then |
| `Downloads.AnswerWasRequested` | src/network/mod.rs:457-482 | an answered download has an earlier step that took the command with its id, user and file and issued a request to the user's peer, and a later one that took that peer's response to that request |
| `Downloads.DownloadIsFaithful` | src/network/mod.rs:287-297 | whatever is queued, sent or reported for a download is for the file of its command and the peer of its user |
| `Answered.DownloadIsAnswered` | src/network/mod.rs:457-482 | the response to a download is answered to its command, successfully, with the user and the file of that command |
| `Answered.ListingIsAnswered` | src/network/mod.rs:426-440 | the first response to a listing is answered to its command with exactly the names it carries |
| `Answered.FilesWereListed` | src/network/mod.rs:253-276 | an answered listing was sent for its command and has the names of the first response to it |
| `Answered.PeersPendingIff` | src/network/mod.rs:236-252 | a command for the peers is pending if and only if there was no discovery since |
| `Answered.PeersAreAnswered` | src/network/mod.rs:379-405 | the first discovery after a command for the peers answers it with exactly the names known then |
| `Answered.PeersWereDiscovered` | src/network/mod.rs:379-405 | a list of peers was asked for and has the names known at the first discovery after that |
| `Answered.RegisteredIff` | src/network/mod.rs:226-235 | a command is answered as registered if and only if it was taken as a registration under a valid name |
| `Answered.NotRegisteredIff` | src/network/mod.rs:277-316 | a command is answered with an error if and only if it asked for something of a user not known when it was taken; the error names that user, and there is no other |
| `Answered.KnownAreDiscovered` | src/network/mod.rs:369-377 | the users known are those of all discoveries so far, each with the peer of the last registration that had an address |
| `Answered.CalledIff` | src/network/mod.rs:226-263 | the loop has a name registered, peers discovered, a listing sent or our file names told if and only if one of its steps asks for it, at the rendezvous point, at the peer the user is known as, and with the names of the directory |
| `Successes.DownloadSucceeds` | src/network/mod.rs:283-482 | a concrete run from the command through dial, substream and response to the answer |
| `Successes.UploadSucceeds` | file-get/src/protocol.rs:93-104 | a concrete run on which a peer asks for a file and it is sent in full |
| `Unanswered.DownloadPendingIff` | src/network/mod.rs:457-487 | a download taken up is pending if and only if no response to its request was taken |
| `Unanswered.EndDecides` | src/network/mod.rs:457-487 | once the terminal event of its request is taken, a download is pending if and only if that event is not the response |
| `Unanswered.FailedDownloadHangs` | src/network/mod.rs:487 | a download whose request has failed is pending and unanswered for the rest of every run |
| `Unanswered.DownloadHangs` | src/network/mod.rs:487 | a concrete run that leaves a download hanging after a failed dial |
| `Unanswered.ListingPendingIff` | src/network/mod.rs:426-447 | a listing taken up is pending if and only if its response was not taken; its failure leaves it pending |
| `ServedRequests.DroppedIffOpenFails` | src/network/mod.rs:453-455 | a response sender is dropped exactly when the last step failed to open the file, and the loop ends with that |
| `ServedRequests.NoUpgradePanicsMeanwhile` | src/network/mod.rs:448-456 | as long as the loop goes on, every received request it has taken was answered, and no upgrade has panicked or can panic |
| `ServedRequests.MissingFilePanics` | src/network/mod.rs:453-455 | a concrete run on which a peer asks for a missing file, after which its upgrade can panic |
| `CommandGrammar.WhitespaceIs` | src/command.rs:68 | words are split at exactly the 25 code points with the White_Space property |
| `CommandGrammar.WordsOfConcat` | src/command.rs:68 | one whitespace character separates the words in front of it from those behind it and adds none |
| `CommandGrammar.WordsOfWord` | src/command.rs:68 | a text without whitespace is its own only word |
| `CommandGrammar.JoinOfPieces` | src/command.rs:85-86 | the pieces joined by arrows are the text, and no piece contains an arrow |
| `CommandGrammar.PiecesOfJoin` | src/command.rs:85-86 | arrow-free pieces are recovered from their join: no arrow straddles a piece and a separator |
| `CommandGrammar.ParsedIsWellFormed` | src/command.rs:67-93 | an accepted command has a word for a registered name, no whitespace in a name, no arrow in the names of a download |
| `CommandGrammar.RoundTripIff` | src/command.rs:67-93 | printing a command in the documented syntax and parsing it gives it back if and only if it is well formed |
| `CommandGrammar.Normalising` | src/command.rs:67-93 | for every accepted text, printing the command and parsing again gives the same command |
| `CommandGrammar.ParsesIff` | src/command.rs:67-93 | a text is read as a command if and only if the command is well formed and the text says it at its beginning, or, for a file, says it and more pieces behind it |
| `CommandGrammar.RefusedIff` | src/command.rs:67-93 | a text is refused if and only if it says no well-formed command, and always as an invalid command |
| `CommandGrammar.SurroundingsAreIgnored` | src/command.rs:67-93 | whitespace in front of a command and any text behind a complete one change nothing |
| `CommandGrammar.FileNameIsCutAtArrow` | src/command.rs:85-88 | whatever follows an arrow in a file name is lost |

## Left out

* Sockets, file contents, `copy_stream` and the message codec: an upgrade completes or fails.
* Wakers, `shrink_to_fit` and the inside of `FuturesUnordered`: the set of inbound channels is a map
  by id whose ready items come out in any order.
* Peer addresses, `on_address_change`, `Debug` and `From` implementations.
* Real time: timeouts may happen at any moment, and the keep-alive deadline is an opaque number.
* `init`, listening, the rendezvous, identify, ping and keep-alive behaviours, key generation, `Client`
  and the command line. The loop starts connected to its rendezvous point.
* The asynchronous bodies of `upgrade_inbound` and `upgrade_outbound` are phases of `Link.Link` advanced by
  steps, not methods on a socket; what suspends them inside a read or a write is not captured.
* The two loops of `on_connection_closed` and the loops of a discovery are methods of their own, so that
  each has one loop invariant.
* What becomes of the calls to the rendezvous and list-files behaviours: they are the list `calls`, and
  their consequences arrive as events.
* Response channels and readers are not objects: supplying a reader is the step `Swarm.Reply`, dropping the
  sender the step `Swarm.DropSender`, and what was sent on a command's response channel the list `answers`.
* The shutdown after the event loop has ended: with the loop, queued requests and their senders are
  dropped, and upgrades that await one of those run into the same expect until their tasks are stopped.
* The event loop's object does not take events out of the swarm itself; `EndToEnd` feeds it, on values,
  with exactly the events that FileGet enqueued.
* Runs: the wrap-around of the id generators is not reached on them, since fewer than 2^64 - 1 ids are drawn.
* Every command being answered, and every received request having exactly one terminal event, are not
  properties of the code; see the section on departures for what holds instead.
