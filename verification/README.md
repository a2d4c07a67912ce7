# Verification of the octoplex stream control plane

Octoplex takes one live stream and relays it to many destinations, each by a container of its own. This project is a Dafny model of the part that decides what runs: the life of a container, the actor that starts and stops containers, the server loop with its store, the event bus with its client sessions, the message converters, and the browser's end of a session. It is checked with `dafny verify dfyconfig.toml`.

Each component that changes state step by step is written as a class or a loop and proved against functions on values; the properties are proved about those functions, over every sequence of steps. The concurrent parts are step relations, in which every list of actions is an interleaving (an action that cannot happen is skipped), so that "after any actions" means in every reachable state.

| file | models |
|---|---|
| `Domain.dfy` | containers, destinations, the application state, commands and events |
| `Stats.dfy` | the moving average and the counters of a container's statistics |
| `RateFormula.dfy` | the rates as bytes over the time of the window |
| `ContainerRun.dfy` | one run of a container: main goroutine, waiter goroutine, their channels |
| `RunHistory.dfy` | what a run decides and how it ends, read off what happened to it |
| `RunReports.dfy` | what a run reports, read off the same |
| `LoopFields.dfy` | which input of the control loop each field of a report comes from |
| `Replicator.dfy` | restart policy, the loop that follows one destination, the actor |
| `Streaming.dfy` | a container's run joined to the loop that follows it |
| `StreamControl.dfy` | the server's start goroutines around the actor |
| `StreamRequests.dfy` | what becomes of each request to start or stop a stream |
| `OwnStops.dfy` | whose run the stop of a finished run hits |
| `Store.dfy` | validation, slices that share their array, the file store |
| `Validation.dfy` | which validation message for which destination, and in what order |
| `Server.dfy` | the command loop on values, its invariants and replies |
| `Commands.dfy` | what each command promises, and what a run of commands and reports adds up to |
| `App.dfy` | the command loop in place, on arrays shared with the store and with published events |
| `Bus.dfy` | the event bus |
| `Sessions.dfy` | WebSocket and gRPC sessions, alone and together on the bus |
| `SessionHistory.dfy` | the commands a session dispatches and the events that reach its client |
| `Protocol.dfy` | commands, events and validation errors to protobuf and back |
| `HexID.dfy` | the browser's hexadecimal IDs |
| `Requests.dfy` | from a destination list to the page and from the page back to a command |
| `Page.dfy` | every event as the page parses it |
| `Browser.dfy` | the browser's connection, reconnection and command queue |
| `Connection.dfy` | what the page is told of its connection |
| `Conversation.dfy` | a browser's socket served by a WebSocket session |

## What the proofs found

Where a plausible property is false of the code, the project states exactly when it holds.

- A refused update or removal is not undone in the store's memory, because `Get` shares its slice. The runtime list keeps showing what was last accepted, and what a refused update wrote comes out with the next accepted add (`Server.RefusedUpdateSurfaces`). A refused removal always leaves an invalid list behind, and from an invalid list every add is refused until another update or removal (`Server.RefusedRemovalStays`, `Server.InvalidStoreBlocksAdds`).
- Removal looks the ID up in the store and takes the URL at the same index of the runtime list. It stops the stream of that destination exactly if the ID stands at the same place in both lists; after a failed write it can stop another one (`Server.RemoveStopsOwnStreamIff`, `Server.RemoveCanStopAnotherStream`).
- Stops carry a URL and not a run. The stop that a finished run's goroutine queues releases that run exactly if no stop of the URL has had an effect since the run was started (`OwnStops.OwnStopHitsOwnRunIff`); while nobody asks for a stop, from when the URL was last quiet, it always does (`OwnStops.OwnStopsHitOwnRuns`). Otherwise it can release a newer run (`OwnStops.LateStopHitsNewerRun`), also when nobody has asked since the run itself was started (`OwnStops.LateStopsFollowOneAnother`). In any case no URL is left in the set without something that will release it (`StreamControl.NoURLStuck`).
- The error of a container that exits is missing from the done value, and so from the event sent to the client, exactly if the loop sees the closed error channel before it has read the last report; an error sent on the channel never is (`Streaming.DoneCarriesError`, `Streaming.ErrorCanBeLost`).
- A sample read at the time of the one before it makes a rate infinite or undefined. The rates reported are defined exactly if every sample since the container last restarted had an interval; one without spoils them also after it has left the ten-slot window (`Stats.RatesDefinedIff`, `Stats.SpoiledForGood`).
- Decoding an app state without build information dereferences nil (`Protocol.DecodePanicsIff`); encoding a stream exit without an error does too (`Protocol.EventRoundTrip`).
- After the page disconnects, the close event of its socket schedules a reconnection unless the code is 1000 or 4003 (`Browser.ReconnectsAfterDisconnectIff`).
- A socket that opens after it has been replaced sends a second handshake over its replacement, on which the server ends the session; without such an opening the browser never ends its session (`Browser.OneHandshakeIff`, `Conversation.SecondHandshakeIsStale`).
- The ID parser of the browser refuses only odd lengths; other text is turned into some bytes (`HexID.PairMeaning`, `Requests.ReceivedIff`).

## Model

| member | source | states |
|---|---|---|
| Stats.Rolling.constructor | internal/container/stats.go:117-121 | a new average has n zero slots and has seen nothing |
| Stats.Rolling.Add | internal/container/stats.go:122-127 | the ring buffer returns the average of the list of all inputs so far: the mean over the last n, if all inputs are finite, with zeros for those not yet there |
| Stats.AverageSlides | internal/container/stats.go:122-127 | the incremental update (newest less the one that falls out, over n) takes the average of a list to that of the list with one more input |
| Stats.AverageIsWindowMean | internal/container/stats.go:116-128 | n times the average is the sum of the last min(n, calls) inputs, for all finite inputs |
| Stats.AverageBounded | internal/container/stats.go:116-128 | inputs in [0, M] keep the average in [0, M] |
| Stats.Epoch | internal/container/stats.go:77-84 | the current epoch starts after the last sample that shows a restart, and holds none that does |
| Stats.EpochAccounting | internal/container/stats.go:77-104 | from anywhere in an epoch, baseline plus the byte differences is the last counter, no subtraction underflows, the counter never falls |
| Stats.RatesDefinedIff | internal/container/stats.go:91-97 | what is reported does not depend on the unspecified conversion of a value that is not finite, if and only if every sample of the epoch had an interval |
| Stats.SpoiledForGood | internal/container/stats.go:91-112 | for any number of good samples after one without an interval, the rates reported are still undefined, also when the window holds only finite rates |
| Stats.RxSinceIsFirstGrowth | internal/container/stats.go:99-101 | rxSince is set if and only if the epoch received anything, if and only if a first growing sample exists, and then equals the start of that sample's interval |
| Stats.Collector.Reset | internal/container/stats.go:37-44 | counters, averages and rxSince start anew |
| Stats.Collector.Handle | internal/container/stats.go:63-112 | the report for each sample, and the collector's whole state, are what the list of all samples says: zero after a restart, else the averages of the epoch's rates and its rxSince |
| RateFormula.SteadyRates | internal/container/stats.go:91-112 | with samples of equal length d and no restart, the rate reported is the growth of its own byte counter over the last ten samples, or those there are, per ten times d, in kilobits per second rounded down; for both counters |
| RateFormula.ReportOfSample | internal/container/stats.go:77-112 | a sample that shows a restart is reported as zeros, any other with its own CPU and memory figures |
| ContainerRun.RxSinceComesFromStats | internal/container/container.go:462-470 | the rxSince of a report is that of the latest stats, or zero if a response came after them |
| ContainerRun.RxSinceOfAppliedSamples | internal/container/container.go:514-520 | it is the rxSince of exactly the samples whose stats the loop has applied since the last response |
| ContainerRun.Monitor.constructor | internal/container/container.go:440-446 | the loop starts by sending a running container |
| ContainerRun.Monitor.HandleResponse | internal/container/container.go:450-479 | a response clears the statistics, marks the container restarting or exited, carries the error and exit code only in exited, is always sent, and ends the loop exactly if not restarting |
| ContainerRun.Monitor.HandleEvent | internal/container/container.go:487-513 | a start event makes the container running again, a health event sets its health; both are sent, and no other event changes anything |
| ContainerRun.Monitor.HandleStats | internal/container/container.go:514-520 | statistics are copied and sent |
| ContainerRun.Monitor.Loop | internal/container/container.go:448-523 | the in-place loop sends what the fold over its inputs says, up to the first response that is not a restart or the first error, which goes to the error channel |
| LoopFields.FieldsOfInputs | internal/container/container.go:448-523 | while the loop goes on, each field comes from the last input that sets it: status from responses and start events, health from responses and health events, statistics from responses and statistics, restart count from responses |
| LoopFields.RunningIff | internal/container/container.go:462-494 | the container counts as running if and only if no response has arrived or a start event has arrived after the last; otherwise as restarting |
| LoopFields.LoopEnds | internal/container/container.go:450-486 | the loop returns on the first response that is not a restart, with the exited state it describes, and fails on the first error; every other input that says something about the container sends its state |
| ContainerRun.WaiterProtocol | internal/container/container.go:433-438 | in every interleaving: restarting responses are numbered 0, 1, 2, ...; at most one terminal message, and it is last; the number about to be sent and each count passed to the callback is the number of successful restarts, but 0 on cancellation |
| ContainerRun.TraceLaw | internal/container/container.go:255-330 | the status trace is a prefix of pulling\* created running running (running or restarting)\* exited; exit code present if and only if exited; error only in exited |
| ContainerRun.HistoryGrows | internal/container/container.go:250-333 | reports, errors and messages of a run are a prefix of those of any longer run |
| ContainerRun.FinishedRun | internal/container/container.go:448-486 | a finished run closed its error channel and either sent exited last and no error, or exactly one error and no exited; an exited report repeats the waiter's decision |
| ContainerRun.NeverStuck | internal/container/container.go:527-614 | a waiter with a response finds the loop, a loop without a waiter finds an error, no error send blocks; and short of a full state channel every unfinished state has a next step of the program or Docker |
| ContainerRun.NeverPanics | internal/container/container.go:574-577 | a callback that returns no error with a restart never panics the waiter |
| RunHistory.ExitIsDecided | internal/container/container.go:548-591 | in every reachable state an exit is decided on the exit code and running time that came with it, on the number of restarts that have happened and on the lines logged since the last; and the response and the ending say so |
| RunHistory.EndingIsExplained | internal/container/container.go:546-612 | a run whose waiter has ended it was ended by something that happened: an exit decided to be final, with exactly its code, time, count and lines; a context that had been cancelled; or a wait or restart that failed |
| RunHistory.ErrorsAreRaised | internal/container/container.go:594-607 | every error anywhere in a run was raised by a failed setup step, wait or restart that happened |
| RunHistory.FinishedRunSaysWhy | internal/container/container.go:448-486 | a finished run has sent the one error that was raised, or an exited report with the code, count and error of the exit that was final, or of the cancellation |
| RunHistory.WhatCanHappen | internal/container/container.go:448-614 | in every reachable state an action can happen if and only if its goroutine has come to it; events, statistics, responses and log lines are taken when they come, exits while the container runs, the timer after a response that has not been followed by a restart; neither error channel is ever full |
| RunReports.ReportsAreDue | internal/container/container.go:255-333 | what a run has sent, and is sending, is one report for each progress message, the created one, the running one, and then what the control loop sends on the inputs it took; the setup steps come in their order |
| Replicator.OnlyShortFirstRunsEnd | internal/replicator/replicator.go:126-136 | a natural exit ends a run only if it happened within ten seconds, by the time that came with it, and without a restart before it; exactly then the exited report has an error, the one read off the lines logged before it; any other exited report is a cancellation |
| Replicator.OtherRunsRestart | internal/replicator/replicator.go:126-136 | the converse: in every reachable state an exit within ten seconds and without a restart ends the run, and any other is answered with a restart, numbered by the restarts so far |
| Replicator.DestLoop | internal/replicator/replicator.go:241-285 | one report for each container state before the first signal of the error channel: off air if and only if not running, live if and only if running with an rxSince over 5 s ago, starting otherwise; one more for the signal, which is also the single done value, and which an error marks exited |
| Replicator.LiveIff | internal/replicator/replicator.go:254-265 | in terms of what the control loop took: off air if and only if a response has arrived and no start event after it; live if and only if not, and the applied samples have an epoch whose first growing sample began over 5 s ago; starting otherwise |
| Streaming.Follow | internal/replicator/replicator.go:247-285 | on what arrives from one run the loop ends with the done value that its last state and the end signal give |
| Streaming.ReceivedInOrder | internal/replicator/replicator.go:253-283 | in every interleaving the loop has received the states that the run sent, in order and from the first, the rest wait in the channel; it can receive the next of them, or the one error, or, with none, that the channel is closed |
| Streaming.DoneCarriesError | internal/replicator/replicator.go:241-285 | in every interleaving of a run and its loop: the done value carries the run's error, except that the error of an exited report is missing if and only if reports were left unread; an error that was sent never is |
| Streaming.ErrorCanBeLost | internal/replicator/replicator.go:253-271 | under the restart policy a run that fails at once can end with its error unread |
| Replicator.Actor.StartAction | internal/replicator/replicator.go:92-137 | a start is ignored if the URL is in the set; otherwise takes the next index and names a container by it |
| Replicator.Actor.StopAction | internal/replicator/replicator.go:216-235 | a stop of a URL in the set removes containers and takes it out; any other does nothing |
| Replicator.Actor.ActorLoop | internal/replicator/replicator.go:310-314 | the actor's state is the fold of the actions it received |
| Replicator.StartsAndStopsBalance | internal/replicator/replicator.go:92-104 | effective starts and stops of each URL alternate from a start; membership is their difference; the set's size is all starts less all stops; nextIndex counts starts |
| Replicator.ItoaInjective | internal/replicator/replicator.go:103 | different indexes are written differently |
| Replicator.NamesDistinct | internal/replicator/replicator.go:97-103 | the i-th container started is named replicator- and i in plain decimal, so that no name is given twice |
| Replicator.HeldIff | internal/replicator/replicator.go:92-235 | after any actions a URL is in the set if and only if a start of it was asked for and no stop since |
| StreamRequests.PerformedInOrder | internal/server/serverapp.go:532-558 | in every reachable state what was asked while there was room (starts, stops, and stops of finished runs) has been performed in that order, or waits in the channel in that order; and the actor is where the performed actions lead |
| StreamRequests.StopTakesEffect | internal/server/serverapp.go:547-558 | from every reachable state with room, once the actor has taken what stood before a stop and the stop itself, its URL is not in the set, also if the start was still queued |
| StreamRequests.StartTakesEffect | internal/server/serverapp.go:532-546 | likewise for a start, whose URL is then in the set |
| StreamRequests.FinishedRunIsReleased | internal/server/serverapp.go:532-544 | while the context lives and with room, a run that ends by itself is released in so many steps: its value is received, its stop queued, and the actor comes to it |
| StreamRequests.RunsAreEffectiveStarts | internal/replicator/replicator.go:89-104 | of the starts performed, number id is that of request id; it was ignored if and only if its URL was in the set when the actor came to it |
| StreamControl.NoURLStuck | internal/server/serverapp.go:532-544 | while the context lives, each URL in the set has a latest effective start that is still streaming, or has an undelivered done value, or a goroutine about to queue its stop, or its own stop queued |
| StreamControl.DoneAtMostOnce | internal/replicator/replicator.go:89-145 | the requests that have got a done value are exactly those whose run is done, once each |
| StreamControl.SystemBalance | internal/replicator/replicator.go:216-235 | the balance of starts and stops holds inside the whole system |
| OwnStops.StoppedIffStarted | internal/replicator/replicator.go:92-104 | while a URL is held, it has been stopped since one of its starts if and only if it has been started since |
| OwnStops.OwnStopHitsOwnRunIff | internal/server/serverapp.go:532-544 | when the actor takes the stop of a finished run and the URL is in the set, the run it releases is that run if and only if no stop of the URL has had an effect since it was started |
| OwnStops.OwnStopsHitOwnRuns | internal/server/serverapp.go:532-544 | from any time the URL is quiet, as long as nobody asks for a stop of it, every own stop finds the URL in the set and releases its own run |
| OwnStops.UnstoppedURLsReleaseTheirRuns | internal/server/serverapp.go:532-544 | so it is for a URL that nobody has ever asked to stop |
| OwnStops.LateStopHitsNewerRun | internal/server/serverapp.go:541 | after a start, a stop and a start, a run streams on while its URL has been released by the older run's own stop |
| OwnStops.LateStopsFollowOneAnother | internal/server/serverapp.go:541 | that run's own stop then hits a third run, though nobody has asked for a stop since it was started |
| Store.Validate | internal/store/filestore.go:113-141 | the two loops compute the error table: a message for each blank name and each bad URL in order, and one if any URL repeats |
| Store.HasDuplicate | internal/store/filestore.go:133-138 | whatever order the counts are visited in, one above 1 is found if and only if two destinations share a URL |
| Store.NoErrorsIffValid | internal/store/filestore.go:113-141 | the table is empty if and only if all names are non-blank, all URLs rtmp with a non-blank host, and URLs pairwise distinct |
| Validation.URLMessageIff | internal/store/filestore.go:122-128 | each of the three texts appears if and only if it is the first thing wrong with the URL |
| Validation.ErrorTable | internal/store/filestore.go:113-141 | at most the fields name and url; one text for each blank name; one for each bad URL in the order of the list, then one more if any URL stands twice, however often; no field without a text |
| Store.ValidityOfParts | internal/store/filestore.go:113-141 | a valid list stays valid without an element; adding to an invalid one does not make it valid |
| Store.AppendTo | internal/server/serverapp.go:435-440 | appending leaves what the shared slice shows unchanged, in place or not |
| Store.DeleteFrom | internal/server/serverapp.go:498 | deleting shifts the shared array and clears its last element, under every slice that shares it |
| Store.IndexOfID | internal/server/serverapp.go:459 | the first element with the ID, or none |
| Store.FileStore.Create | internal/store/filestore.go:51-67 | a new store is empty, valid and written |
| Store.FileStore.Read | internal/store/filestore.go:69-85 | a store read from a file holds its valid payload |
| Store.FileStore.Get | internal/store/filestore.go:88-90 | the stored slice itself is returned |
| Store.FileStore.Set | internal/store/filestore.go:93-109 | writes and adopts a valid list only; refused, pointer and file stay; unwritable, the pointer stays and the file is in an unknown state, since the write truncates first; a file not in that state holds the valid list last accepted |
| Server.IndexOfID | internal/server/serverapp.go:511-513 | the first runtime destination with the ID, or none |
| Server.IndexOfURL | internal/server/serverapp.go:616-618 | the first runtime destination with the URL, or none |
| Server.ListsStayAligned | internal/server/serverapp.go:483-509 | after any commands and reports, refused or not: both lists have the same length, the runtime list is the valid list last accepted, and no command indexes out of range |
| Server.StoreAndRuntimeAgree | internal/server/serverapp.go:603-651 | as long as no update or removal is refused by Set, store and runtime list agree position by position on ID, name and URL |
| Server.RefusedUpdateSurfaces | internal/server/serverapp.go:465-479 | what a refused update wrote to the store is not shown, but is accepted and shown with the next add that succeeds |
| Server.RefusedRemovalStays | internal/server/serverapp.go:497-506 | a refused removal leaves the store in step if and only if it held zero entries from that place on; from a valid list, never; what it leaves in the store is invalid |
| Server.InvalidStoreBlocksAdds | internal/server/serverapp.go:433-447 | from an invalid store every add is refused with validation errors, across any actions but updates and removals |
| Server.ReportTouchesOneDestination | internal/server/serverapp.go:615-627 | a replicator report changes status and container of the one destination with its URL, and nothing else |
| Server.RemoveStopsOwnStreamIff | internal/server/serverapp.go:486-498 | removal stops the named destination's stream if and only if its ID has the same index in both lists, and always if nothing was refused |
| Server.RemoveCanStopAnotherStream | internal/server/serverapp.go:492-502 | after a failed write, removing the second destination stops the first one's stream |
| Server.OneAcceptedReply | internal/server/serverapp.go:335-369 | a synchronous destination command gets exactly one reply, of a kind its handler accepts, as success exactly for lists and successes; successes go to all, failures only to the requester and change neither the runtime list nor what is accepted |
| Server.OutcomeKind | internal/server/grpc.go:165-361 | each command's outcome is one its handler's type switch knows |
| Commands.StartCommand | internal/server/serverapp.go:510-546 | in any state a start succeeds if and only if a destination has the ID, the source is live and nothing is wrong with the host of the first such destination; its URL, and nothing else, is then started; otherwise nothing is asked, and the client is told what was wrong first |
| Commands.StopCommand | internal/server/serverapp.go:547-558 | a stop succeeds if and only if a destination has the ID; the URL of the first such one, and nothing else, is then stopped |
| Commands.AddCommand | internal/server/serverapp.go:433-450 | an add succeeds if and only if the stored list with the new destination at its end is valid and can be written; that is then the list everywhere, off air; otherwise nothing changes, and the client gets the errors of the list |
| Commands.UpdateCommand | internal/server/serverapp.go:451-482 | an update that is not refused edits the first stored destination with the ID, where nothing given keeps the old value; it succeeds if and only if the edited list is valid and can be written; the edit stays in the store in any case |
| Commands.UpdateRefused | internal/server/serverapp.go:451-463 | it is refused if and only if the first destination with the ID is live, or else the store does not have the ID |
| Commands.RemoveCommand | internal/server/serverapp.go:483-509 | a removal that is not refused takes out the first stored destination with the ID and stops the URL at that place of the runtime list; it succeeds if and only if the rest is valid and can be written; if not, the rest stays in the store with a zero destination at its end |
| Commands.RemoveRefused | internal/server/serverapp.go:483-495 | it is refused if and only if the store does not have the ID, or the destination at its place is live and it is not forced |
| Commands.SourceIsLastReported | internal/server/serverapp.go:608-611 | in every run the source is the one reported last |
| Commands.StatusIsLastReported | internal/server/serverapp.go:615-651 | in every reachable state each destination shows the last report on its URL since the list was last rebuilt, and is off air if there is none |
| Commands.LatestPublicationIsCurrent | internal/server/serverapp.go:315-388 | after any actions the last state published is the current one; nothing changes unseen |
| App.App.constructor | internal/server/serverapp.go:125-126 | the runtime list starts as the store's |
| App.App.ApplyPersistentState | internal/server/serverapp.go:632-634 | the runtime list becomes a new slice with the store's entries and zero status |
| App.App.MakeDestinations | internal/server/serverapp.go:636-651 | the conversion loop makes one off-air destination for each entry, in order |
| App.App.CloneDestinations | internal/domain/types.go:18-24 | the clone is a new slice equal to the list |
| App.App.SendEvent | internal/server/serverapp.go:263-267 | an event goes out with a clone; every event sent before still says what it said |
| App.App.Publish | internal/domain/types.go:18-24 | the state sent is a copy of source, destinations and build information as they are now |
| App.App.HandlePersistentStateUpdate | internal/server/serverapp.go:603-606 | the list is rebuilt from the store and the new state published |
| App.App.Commit | internal/server/serverapp.go:473-480 | Set's result; if stored, the runtime list is the new list and is published; otherwise nothing changes and nothing is published |
| App.App.Add | internal/server/serverapp.go:433-450 | in place as specified: state, outcome, what is published |
| App.App.FindLive | internal/server/serverapp.go:591-599 | true if and only if the first destination with the ID is live |
| App.App.EditEntry | internal/server/serverapp.go:465-471 | the pointer write changes name and URL of one stored entry |
| App.App.Update | internal/server/serverapp.go:451-482 | in place as specified, with the edit going through to the store before Set decides |
| App.App.DeleteDestination | internal/server/serverapp.go:497-509 | the stop is sent and the store shifted before Set decides |
| App.App.Remove | internal/server/serverapp.go:483-509 | in place as specified, with the index of the store used in the runtime list |
| App.App.StartStream | internal/server/serverapp.go:510-546 | as specified: not found, source not live, host not found, or a start |
| App.App.StopStream | internal/server/serverapp.go:547-558 | as specified: not found, or a stop |
| App.App.List | internal/server/serverapp.go:428-432 | answers with a clone of the list |
| App.App.ApplyReplicatorState | internal/server/serverapp.go:615-627 | writes through into one destination; every slice published before keeps its value |
| App.App.HandleCommand | internal/server/serverapp.go:417-571 | the in-place command handler refines the specification on values, and publishes exactly what that says |
| App.App.Serve | internal/server/serverapp.go:335-369 | what is sent to all, to the requester and as reply is the specified delivery; what is published is the specified states and lists |
| App.App.Turn | internal/server/serverapp.go:315-387 | one turn of the select: the specified step, what that asks of the replicator, and what it publishes |
| App.App.MainLoop | internal/server/serverapp.go:315-388 | for all action lists the in-place loop ends in the specified state, never indexing out of range; it has asked the replicator for the specified starts and stops and published the specified states and lists, in order; and every event it ever published still says at the end what it said when it was sent |
| Bus.InOrderSubsequence | internal/event/bus.go:52-85 | for every client: received then buffered is an in-order selection from what was published to it since registration; at most 64 buffered; closed if and only if deregistered |
| Bus.OfferedIsPublished | internal/event/bus.go:52-85 | what is offered to a channel is exactly what was published to its client while registered |
| Bus.DropsOnlyWhenFull | internal/event/bus.go:60-66 | an event is dropped only when 64 are buffered; none is sent to a closed channel; others' channels do not change |
| Bus.Channel.TrySend | internal/event/bus.go:61-65 | buffered if there is room, dropped if and only if there is not |
| Bus.Channel.Take | internal/event/bus.go:35-39 | takes the oldest event |
| Bus.Channel.Close | internal/event/bus.go:47 | closes an open channel and changes nothing else |
| Bus.Bus.Enter | internal/event/bus.go:37 | the channel becomes the client's |
| Bus.Bus.Register | internal/event/bus.go:31-39 | a new client with an empty channel |
| Bus.Bus.Deregister | internal/event/bus.go:42-50 | closes and forgets a registered client's channel, once |
| Bus.Bus.Deliver | internal/event/bus.go:80-84 | a non-blocking send to one client changes only its channel |
| Bus.Bus.Send | internal/event/bus.go:53-67 | offers the event once to each registered client, in whatever order |
| Bus.Bus.SendTo | internal/event/bus.go:70-85 | offers the event to one client if registered |
| Sessions.ProcessMessages | internal/server/websocket_proxy.go:198-284 | the loop with its local variables follows the session machine up to and including its deferred calls |
| Sessions.SessionOutput | internal/server/websocket_proxy.go:220-249 | nothing, or one HandshakeCompleted and then the bus events in order; registered if and only if the handshake was sent, but for the moment between the two; deregistered once; dispatches under its own ID, or on a WebSocket the empty one |
| Sessions.ConsumersAreSessions | internal/server/grpc.go:61-96 | the bus's consumers are exactly the sessions between handshake and deregistration, one ID each |
| Sessions.ClientSeesPublishedInOrder | internal/server/grpc.go:83-91 | what a client was sent after the handshake is an in-order selection from what was published to it |
| Sessions.ClientCountIsReceivers | internal/server/grpc.go:98-107 | the client count is the number of running receivers |
| SessionHistory.DispatchesWhatItIsGiven | internal/server/grpc.go:109-128 | in every reachable state a session, of either kind, has dispatched exactly the commands it was given while it took commands (a gRPC session while its receiver runs, a WebSocket session until it returns), in order, each under the ID its client had then |
| SessionHistory.GRPCDispatchesUnderItsID | internal/server/grpc.go:118-125 | a gRPC session's dispatched list is, in order, its client's ID with each command that came while its receiver was running |
| SessionHistory.PublishedArrives | internal/server/grpc.go:83-91 | from every reachable state, an event published while fewer than 64 wait reaches a streaming client, after those that wait before it and in as many steps of its session; for both kinds |
| SessionHistory.GRPCLife | internal/server/grpc.go:61-137 | from every reachable state a gRPC session can be opened, greeted and registered, dispatch a command, pass on an event and end, leaving nothing behind |
| SessionHistory.WebSocketLife | internal/server/websocket_proxy.go:198-284 | so can a WebSocket session, whose command before the handshake is dispatched under no ID |
| SessionHistory.GRPCFailures | internal/server/grpc.go:64-96 | a failed handshake ends a session with nothing sent or registered; an event that cannot be sent is not counted as sent, and the client is deregistered |
| Protocol.CommandRoundTrip | internal/protocol/command.go:14-228 | decoding an encoded command gives it back, for all commands; a decodable message re-encodes to itself if and only if it is not one of the three that decode when absent |
| Protocol.ToInt32FixesIff | internal/protocol/domain.go:38-45 | narrowing to 32 bits is the identity if and only if the value fits, loses a multiple of 2^32, and is idempotent |
| Protocol.TimeRoundTrip | internal/protocol/domain.go:27-71 | instants survive, the zero one as an absent timestamp, any other as whole seconds and less than a second of nanoseconds |
| Protocol.ContainerRoundTrip | internal/protocol/domain.go:15-90 | a container comes back normalised; unchanged if and only if integers fit 32 bits and its error is not empty |
| Protocol.ConvertDestinations | internal/protocol/domain.go:94-100 | the loop converts each destination, in order |
| Protocol.ParseDestinations | internal/protocol/domain.go:115-140 | the loop skips absent ones and fails at the first ID that is not 16 bytes |
| Protocol.DestinationsParseIff | internal/protocol/domain.go:120-139 | a list parses if and only if every destination present has a 16-byte ID |
| Protocol.DestinationsRoundTrip | internal/protocol/domain.go:94-140 | an encoded list parses to the normalised one |
| Protocol.ConvertErrors | internal/protocol/event.go:552-567 | whatever the order, each field keeps its messages |
| Protocol.ParseErrors | internal/protocol/event.go:569-588 | absent lists are left out, and empty messages within lists |
| Protocol.ErrorsRoundTrip | internal/protocol/event.go:552-588 | validation errors come back without their empty messages; unchanged if and only if there are none |
| Protocol.EventDecodesToNorm | internal/protocol/event.go:266-309 | every event that can be encoded decodes to its normal form |
| Protocol.NormFixesCanonical | internal/protocol/event.go:19-126 | an event equals its normal form if and only if integers fit, statuses are known, errors and messages are not empty; normalising is idempotent |
| Protocol.EventRoundTrip | internal/protocol/event.go:19-126 | encoding fails if and only if a stream exit has no error; otherwise decode of encode succeeds, is the identity if and only if the event is canonical, and is stable after one trip |
| Protocol.DecodePanicsIff | internal/protocol/event.go:335-372 | decoding panics if and only if an app state has a source and parseable destinations but no build information |
| HexID.StringToBytes | frontend/src/command-builder.ts:18-28 | throws if and only if the length is odd; else fills one byte for each pair |
| HexID.PairMeaning | frontend/src/command-builder.ts:24-26 | what any two code units mean: base 16 for two digits, else the lenient result of parseInt and the conversion to a byte |
| HexID.BytesRoundTrip | frontend/src/event-parser.ts:15-19 | bytes survive the way through a string, for all byte arrays |
| HexID.StringSurvivesIff | frontend/src/command-builder.ts:18-28 | a string of even length comes back in lower case if and only if it is all hex digits |
| HexID.StringRoundTripIff | frontend/src/command-builder.ts:18-28 | it comes back unchanged if and only if it is all lower-case hex digits |
| Requests.ReceivedIff | frontend/src/command-builder.ts:33-92 | an add arrives as it was made; of the others the browser throws if and only if the ID has odd length, the server refuses if and only if an even length is not 32, and every other request arrives as the same command on the ID's bytes |
| Requests.RowsAddressDestinations | frontend/src/event-parser.ts:113-131 | the page shows each destination in order; acting on a row reaches the server as that command on that destination; row IDs differ if and only if destination IDs do |
| Page.PageSeesEvent | frontend/src/event-parser.ts:53-253 | for every event the server can encode, the page sees what was meant: whole lists in order, each field of a container, source and destination in its place, validation errors as they are; it shows no status of dead or unknown containers, cuts rates and percentages to 32 bits, and passes over lists and two notices |
| Browser.Communicator.constructor | frontend/src/websocket-communicator.ts:20-35 | not connected, nothing queued, no attempts |
| Browser.Communicator.InitWebSocket | frontend/src/websocket-communicator.ts:99-100 | a new socket becomes the current one |
| Browser.Communicator.ScheduleReconnect | frontend/src/websocket-communicator.ts:222-246 | at five attempts an error, else one timer with the doubled delay |
| Browser.Communicator.ConnectNow | frontend/src/websocket-communicator.ts:37-52 | nothing if connected; else a socket, or an error and a reconnection |
| Browser.Communicator.DisconnectNow | frontend/src/websocket-communicator.ts:57-66 | closes and forgets the socket and resets attempts |
| Browser.Communicator.SendCommand | frontend/src/websocket-communicator.ts:72-94 | queued if not connected, else sent, dropped or refused |
| Browser.Communicator.ProcessCommandQueue | frontend/src/websocket-communicator.ts:169-174 | drains the queue, and ends because the connected flag holds |
| Browser.Communicator.OnOpen | frontend/src/websocket-communicator.ts:102-113 | connected, attempts reset, handshake, then the queue |
| Browser.Communicator.OnClose | frontend/src/websocket-communicator.ts:127-144 | 4003 reports unauthorized, 1000 nothing, else a reconnection while attempts are left |
| Browser.Communicator.OnTimer | frontend/src/websocket-communicator.ts:238-245 | makes a socket unless connected |
| Browser.DrainFates | frontend/src/websocket-communicator.ts:169-174 | draining gives every queued command its fate once, in order |
| Browser.OpeningDrains | frontend/src/websocket-communicator.ts:102-113 | on open the handshake precedes all queued commands, each attempted once in order, none left; all over the current socket, the one that opened or another; all lost if that is not open |
| Browser.CommandsInOrder | frontend/src/websocket-communicator.ts:72-94 | in every run, commands attempted followed by commands queued are the commands given, in order; none waits while connected |
| Browser.ReconnectBackoff | frontend/src/websocket-communicator.ts:222-246 | between resets at most 5 delays, the k-th 1000·2^(k−1) ms, their sum 1000·(2^k−1) ≤ 31000 |
| Connection.ConnectedIff | frontend/src/websocket-communicator.ts:57-129 | in every run: connected if and only if some socket has opened since any last closed and since the page last disconnected |
| Connection.StepTellsPage | frontend/src/websocket-communicator.ts:37-144 | for every input: the page is told of a new connection state exactly by openings, closings and disconnects, of being unauthorized exactly by code 4003, of an error for a socket that cannot be made and again if no reconnection is left; sockets are made exactly by connects and timers while not connected |
| Connection.StepSchedulesIff | frontend/src/websocket-communicator.ts:127-246 | a reconnection is scheduled if and only if a socket closes with a code other than 1000 and 4003, or cannot be made, while fewer than five were scheduled since the last reset |
| Connection.PageKnows | frontend/src/websocket-communicator.ts:57-144 | in every run, what the page was told last is whether the communicator is connected |
| Connection.SocketsChange | frontend/src/websocket-communicator.ts:57-144 | a socket changes only by what is reported of it, or by a disconnect, which closes the current one alone; a new one becomes the current one |
| Browser.ReconnectsAfterDisconnectIff | frontend/src/websocket-communicator.ts:127-144 | after a disconnect the socket's close schedules a reconnection if and only if its code is neither 1000 nor 4003 |
| Browser.StepTraffic | frontend/src/websocket-communicator.ts:179-187 | exactly what one input adds to what a socket carries |
| Browser.HandshakeFirst | frontend/src/websocket-communicator.ts:102-113 | in every run the first message on any socket is the handshake |
| Browser.OneHandshakeIff | frontend/src/websocket-communicator.ts:99-113 | each socket carries one handshake if and only if no socket ever opened while another was current and open |
| Browser.ConnectingTwiceGreetsTwice | frontend/src/websocket-communicator.ts:37-52 | two connects before the first opens give a socket two handshakes and another none |
| Conversation.SocketIsServed | internal/server/websocket_proxy.go:217-258 | any session serving a browser socket, with any bus events, timeouts and closings among its turns, dispatches in order a beginning of the decodable commands sent, each under the client's own ID; while streaming, all that have arrived |
| Conversation.SessionEndsIff | internal/server/websocket_proxy.go:208-283 | a session has ended if and only if one of its turns ended it: before the handshake the context, the socket, the timeout or a handshake that could not be answered; after it the context, the socket, a second handshake or an event that could not be passed on |
| Conversation.SecondHandshakeIsStale | internal/server/websocket_proxy.go:220-224 | a second handshake ends a session that serves a browser socket only if a stale socket has opened |

## Left out

- Docker, HTTP, TLS, gRPC and WebSocket transport, DNS, file I/O and JSON: their answers are part of the actions, or parameters; one `ContainerWait` gives at most one result.
- Real time: clocks and timers are inputs. Properties are safety, "something will still happen" invariants and termination; nothing says when.
- URL parsing (`url.Parse`) is an uninterpreted parameter, and so is what the replicator reads off the logs (`startErrFromLogs`), which always names some error.
- CPU percentages are supplied, not computed; float rounding, and `int()` of a value that is not finite, which Go leaves unspecified and the model takes from outside.
- The cache of pulled images, the table of cancel functions, and the check that refuses a restart callback together with a Docker restart policy.
- The goroutines behind logs, events and statistics, which can outlive a run.
- The stop inside `StopDestination` asks Docker to remove containers; that the run then ends is an input, not a consequence.
- Startup, shutdown, the other-instance check and the fatal-error prompt; closing other instances is modelled only for its outcome on the command loop.
- App.App.MainLoop: takes the actions the select chooses, without starting the media server and without the listeners, which touch no destinations; it does not stop at the command that ends the program, after which nothing is taken.
- App.App.Publish: the track list of the source and the exit codes of containers, which a clone shares with the original, are values.
- Replicator.DestLoop: which of two ready channels the select takes is the order of its input list, so the last report need not be exited.
- Sessions.ProcessMessages: within one session's own turns, sending HandshakeCompleted and registering are one; between sessions they are two steps.
- Sessions.ConsumersAreSessions: client IDs are random; that a new one is unused is assumed at registration.
- Absent and empty lists and maps are one value in the converters, and strings are valid Unicode, so that no message fails to become a protobuf value.
- Texts in the browser, but for IDs, are Dafny strings and not UTF-16.
- Browser.Communicator.SendCommand: the callbacks given to the communicator are assumed not to call it back, and incoming messages and socket errors, which change none of its state, are left out.
- In the browser, of the date when the source went live only whether there is one, and the page's own widgets; the terminal UI, dashboards, CLI, tokens, cookies, the media server's configuration and generated code are not part of this model.
