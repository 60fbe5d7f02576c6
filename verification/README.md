# Station playback: a verified model

This project models how a radio station plays its queue and proves what its operations promise
each other. `dafny verify dfyconfig.toml` checks all of it.

**One track.** A station has one player goroutine. While a local item plays, other goroutines call
Pause, Resume, Seek and Interrupt, and all of them reach the player through one shared signal that
cancels the stream in flight; the player must then work out from the guarded fields why its stream
stopped. `Player.dfy` is that goroutine as a transition system whose steps are the atomic steps of
`playLocalItem` and `streamFile`; every other label is a step of some other goroutine, and control
calls may be split at their mutex boundaries (`Lock` and `Cancel`). A label that cannot act changes
nothing, so a theorem about all label sequences covers every interleaving.
`Control.dfy` holds the guarded fields and the arithmetic of positions and seeks.
`StationCode.dfy` is the same code in its own form: an object whose methods update its fields and
whose loops are proved to make exactly runs of the transition system, so the theorems about runs
hold of the loops. The theorems are

* `TapeDeck.dfy`: calls delivered one at a time make the player a tape deck (an offset and a pause
  button), and each call is acted on within one chunk;
* `Conservation.dfy`: under every interleaving, no byte is lost, repeated or reordered;
* `HastyCalls.dfy`: what calls that do not wait for each other do to an item, and when it completes
  by itself;
* `SkipWins.dfy`: from which program points a skip ends the item, how fast, and where it is lost;
* `Pacing.dfy`: streams do not run ahead of the clock, over any number of chunks and laps.

**The whole run.** `RunLoop.dfy` is the outer loop against the queue operations, and `Ledger.dfy`
accounts for every item. `Queue.dfy` and `RadioCode.dfy` are the queue and the loop as objects,
proved against them. `OnAir.dfy` puts the player inside the loop, over one set of controls, shows
that every run of the whole is a run of both, and follows an Interrupt from one item to the next;
`OneInterrupt.dfy` has runs in which one Interrupt costs another item its end.
`QueueLow.dfy` is the edge-triggered low-queue event.

**Around the player.** `Broadcaster.dfy` and `EventBus.dfy` fan chunks and events out over bounded
channels; sending to or closing a closed channel would crash the server, and the models record such
a crash. `Pool.dfy` is the prefetch pool, `Cache.dfy` one entry of the transcode cache.

**Paths and scopes.** `Paths.dfy` has lexical path resolution on strings, `Auth.dfy` a token's
directory scope, and `Listing.dfy` the directory listing together with the check made on queueing.

## What the code does not promise

The model follows the code. Where the code and its comments disagree, or a natural property is
false, the project says exactly when the property holds.

* A skip does not always win (`internal/playback/player.go:127-129`, and the comment on Interrupt
  at `internal/playback/station.go:183-194`). Interrupt sets its flag under the mutex and cancels
  the stream after releasing it. `CompletableIff` says from which states an item can still complete,
  whatever calls follow, and `SkipSticksIff` derives it for a whole Interrupt, for its critical
  section alone and for its cancellation. A whole Interrupt cannot be undone unless it arrives after
  the player's last look at the flag while no stream of the file is registered. There the item
  plays on by itself, but for two points, the questions for a seek and for a pause, at which it
  ends unless another Pause or Seek saves it (`InterruptEndsIff`). Between the two halves of the
  call the item may also run to its end.
* A flag that was not taken is left for a later item, on which no Pause or Seek takes effect
  (`LeftoverSkip`) and which ends the first time its stream is cut (`CutEndsItem`), be it by the
  late cancellation itself (`LateInterruptEndsNextItem`). Each flag is taken by at most one item
  (`OneFlagEach`), yet one Interrupt can end two: the first without taking the flag, exactly when
  the Interrupt finds the player at one of those two questions (`FlagLeftIff`), and the next by it
  (`InterruptEndsTwoItems`). Both mishaps happen from the start of any station (`LateFromStart`,
  `BothFromStart`). An item interrupted without a stop took a flag, or was cut with nothing to be
  found (`WhyInterrupted`).
* Calls that overtake the player are not the same calls one at a time: Pause and Resume in a row end
  the track, and Seek and Pause in a row play the file with the station paused (`HastyPairs`).
  `EndsIff` says from every state whether the item completes by itself and `OwedIff` whether a
  cancellation still owed can keep it from that; `ResumeTooSoonIff` and `PauseHeldIff` say so of a
  Resume and of a Pause, in any state. `PlaysLikeTapeDeck` is about calls the player has time for.
* A completed item was heard to its end, but an item whose every byte was sent can still end as
  interrupted: `WholeFileYetInterrupted`; it can until the player acts on the end of the file,
  and not after: `InterruptibleIff`.
* An item may start before its prefetch is over when the silence it waits behind returns early, as
  an Interrupt cancels it or the clip cannot be opened or read: `CutWaitStartsUnready`.
  `StartedWereReady` shows that an early return is the only way; the model does not tell its causes
  apart.
* Interrupt clears the pause without restarting the position's anchor, so the reported position
  jumps: `InterruptKeepsPositionIff`.
* A seek can leave a file that is shorter than one second, because its duration reads as unknown:
  `SeekStaysInsideIff`.
* The comment at `internal/audiosource/resolve.go:80-84` says absolute locations are rejected; the
  code places them under the root, and so does the model.
* A directory entry that is not written cleanly authorizes nothing, yet directories on the way to it
  may be browsed, as with a trailing slash (`TrailingSlashIsDeadEnd`); `NoDeadEndsIff` says exactly
  which scopes have no such dead ends, and `OneEntryIff` which single entries.
* A temporary file can be left behind when removing it fails, as that error is ignored, and an entry
  that is there is transcoded again when a look at it fails: `OneTranscodePerEntry` and
  `PublishedStays` count both.

## Model

| member | source | states |
|---|---|---|
| TapeDeck.PlaysLikeTapeDeck | internal/playback/player.go:132-178 | for every file, read size and script of calls each made to a settled player: the run sends exactly what a deck with an offset and a pause button sends for some script that presses the calls issued, in order, save at most one pending, with the same ending; the deck completes only at the end of its tape, halts only if the station was stopped, and fails only if the file could not be read |
| TapeDeck.NeverCutShort | internal/playback/player.go:132-178 | without an Interrupt or a stop, an item whose file reads cleanly does not end before its end, however it is paused, resumed and sought one call at a time |
| TapeDeck.StepSimulated | internal/playback/player.go:132-178 | one step of the player is what its deck event says: same output, matching states, and the call pressed is the one that was pending |
| TapeDeck.ActedOnWithinOneChunk | internal/playback/player.go:246-254 | a call that does something is acted on before more than one further chunk goes out |
| TapeDeck.ActedOnWithinNineSteps | internal/playback/player.go:139-155 | a call that cuts the file's stream of a settled player is acted on, or the item is over, within nine steps of the player |
| TapeDeck.AwaitingRun | internal/playback/player.go:139-171 | until a waiting call is acted on the player cannot get back to the file, however it is scheduled |
| Conservation.BytesConserved | internal/playback/player.go:196-272 | under every interleaving each chunk sent is the file's own bytes at the tape's head: where the last chunk ended, or the seek last applied; the player's own byte count agrees; the end is reported only when it was reached |
| Conservation.Contiguous | internal/playback/player.go:136-137 | between two seeks what was heard is one contiguous stretch of the file |
| Conservation.NoSeekNoJump | internal/playback/player.go:148-151 | without a Seek call the offset never jumps |
| Conservation.PausingLosesNothing | internal/playback/player.go:158-176 | without seeks, under any pauses, resumes, skips and cancellations, what was heard is a prefix of the file, and all of it when the item completes |
| Conservation.CompletedAfterSeek | internal/playback/player.go:148-151 | an item that completes was heard from its last seek to the end of the file |
| Conservation.SeeksInside | internal/playback/station.go:284-307 | when the duration is the file's length in whole seconds, and positive, every seek the player ever applies is inside the file, under every interleaving |
| Conservation.CompletesAtTheEnd | internal/playback/player.go:136-151 | then the tape never leaves the file, and an item that completes stands exactly at its end, heard in full from its last seek on |
| Conservation.WholeFileYetInterrupted | internal/playback/player.go:235-250 | a skip after the last chunk ends the item as interrupted although all of it was sent: the converse of completion fails |
| SkipWins.SkipWins | internal/playback/station.go:195-216 | any stream of the item in flight, pause-hold silence included, that is cut by an Interrupt, or by anything while a skip is pending (the late half of an Interrupt, a Pause, a Seek), ends it within nine player steps and one chunk, whatever calls follow, and as interrupted unless the end was already acted on |
| SkipWins.DoomedRun | internal/playback/player.go:139-171 | no call can rescue an item whose stream was cancelled by a skip, and each player step brings it closer to its end |
| SkipWins.CompletableIff | internal/playback/player.go:132-178 | from every state of a local item: no run completes it, if and only if it was interrupted, the station is stopped before the end of the file was acted on, or a skip is pending at a point from which the player is sure to look at it |
| SkipWins.SkipSticksIff | internal/playback/station.go:195-216 | when the item cannot complete any more: after a whole Interrupt, if and only if it did not find the player past its last look at the skip with no stream of the file registered; after its critical section alone, if and only if the player is sure to look at the flag anyway; after its cancellation, whenever that comes with the flag up, again if and only if not in that gap |
| SkipWins.PlaysOut | internal/playback/player.go:226-271 | a stream left alone sends exactly the rest of the file and completes |
| SkipWins.InterruptibleIff | internal/playback/player.go:139-176 | an item can still end as interrupted if and only if the player has not acted on the end of the file |
| HastyCalls.EndsIff | internal/playback/player.go:132-178 | from every state of a local item: left to itself it does not complete if and only if it is stuck, its stream is being cut with no seek that the player will look at, or it is on hold and paused |
| HastyCalls.OwedIff | internal/playback/station.go:195-216 | from every state in which some call still owes its cancellation: some place for it, although nothing fails, keeps the item from completing by itself if and only if the end was not acted on, save where the player is sure to be back in the file with a seek waiting and no skip; and some place for it is harmless if and only if the item would complete without it |
| HastyCalls.ResumeTooSoonIff | internal/playback/player.go:139-155 | for a Resume in any paused state, whatever seek or skip is pending: exactly when the item does not complete by itself afterwards, and exactly when a cancellation still owed can land where it does not, or where it does |
| HastyCalls.PauseHeldIff | internal/playback/station.go:240-257 | for a Pause in any state where it reports success: it holds the item if and only if the item is stuck, or the Pause finds the stream of the file, or the player just after it, with no seek looked at first, or finds an earlier hold not yet left; otherwise the file plays to its end with the station paused; and the same for its critical section alone, with its cancellation owed |
| HastyCalls.InterruptEndsIff | internal/playback/station.go:195-203 | an Interrupt with no call after it ends the item if and only if the end was not acted on and the player is not past its questions with no stream of the file registered; and the same for its critical section alone, with its cancellation owed |
| HastyCalls.FlagLeftIff | internal/playback/player.go:145-155 | an Interrupt, whole or its critical section alone, ends the item and leaves its flag up for another if and only if it finds the player at its question for a seek or for a pause |
| HastyCalls.HastyPairs | internal/playback/player.go:139-176 | two calls in a row to a settled player: Pause and Resume end the item, Seek and Pause play it to its end, paused |
| HastyCalls.SilenceGoesOn | internal/playback/player.go:161-171 | while an item is held and nothing fails, the silence clip plays over and over, each time from its start, and only a call ends it |
| HastyCalls.FailureEnds | internal/playback/player.go:204-216 | a file that cannot be opened, or fails to be read, closes its stream as interrupted with nothing sent, and ends the item unless a pause or a seek is waiting; reaching the end closes it as completed |
| Pacing.DriftFree | internal/playback/player.go:218-266 | in every state of every run the bytes of the stream in flight are at most bytesPerSecond times its elapsed time, plus one chunk of a fifth of a second, plus one nanosecond's worth for each lap |
| Pacing.KeepsPace | internal/playback/player.go:218-266 | the other side: when the player is never kept from a step it can take and wakes at most g late, the bytes of the stream in flight are at least bytesPerSecond times its elapsed time, less what g is worth, once for each lap |
| Pacing.GoesOnIff | internal/playback/player.go:234-244 | an undisturbed player goes on from a chunk exactly when the time for all that was sent is up, to the nanosecond, and waits until then |
| Pacing.ReadTakes | internal/playback/player.go:218-232 | a read takes a fifth of a second, or 4096 bytes when that rounds to nothing, unless less comes or is left; failures are kept, and the end is seen only when everything was read |
| Player.SaneRun | internal/playback/player.go:196-202 | a stream is registered exactly between its opening and its closing, and positions never go negative, under every interleaving |
| Control.CallEffects | internal/playback/station.go:195-271 | field by field, which calls act and what they change: Pause and Resume need a current item that is not a live relay, or a pause, and a call that does not act changes nothing |
| Control.SeekEffect | internal/playback/station.go:284-307 | an accepted seek goes to exactly the second asked for when that is inside the track or its duration is unknown, to the start when it is before, to the end when it is past it; a refused one changes nothing |
| Control.CancelEffect | internal/playback/station.go:251-306 | Interrupt, an accepted Pause, and an accepted Seek while not paused cancel the stream; Resume and the others do not |
| Control.PositionMeans | internal/playback/station.go:321-329 | the reported position is the offset, plus the whole seconds since the anchor while not paused |
| Control.ReportedPositionBound | internal/playback/station.go:321-329 | from any state on, since the last new track or accepted seek, as long as no Interrupt comes after it: the reported position never exceeds the true playing time and lags it by less than one second plus one for each pause since |
| Control.PositionSteady | internal/playback/station.go:240-271 | Pause and Resume do not move the reported position, and it never falls as time passes |
| Control.InterruptKeepsPositionIff | internal/playback/station.go:195-200 | Interrupt keeps the reported position if and only if the track is not paused or its anchor is less than a second off |
| Control.SeekStaysInsideIff | internal/playback/station.go:284-307 | all seeks land inside the file if and only if its duration is positive, and seeking to the end then leaves less than a second |
| Control.SeekByStaysInside | internal/playback/station.go:311-317 | SeekBy with any signed delta leaves a pending seek inside the file |
| StationCode.Station.Interrupt | internal/playback/station.go:195-203 | clears the pause and the pending seek, sets the skip, cancels the stream in flight |
| StationCode.Station.Pause | internal/playback/station.go:240-257 | reports whether it did anything, folds the elapsed whole seconds into the position, cancels only when it did |
| StationCode.Station.Resume | internal/playback/station.go:261-271 | restarts the anchor, and reports whether the station was paused |
| StationCode.Station.SeekPosition | internal/playback/station.go:284-307 | applied exactly for a current item that is no live relay; then the answer, the pending seek and the position are the second asked for, or the nearer end of the track when that is outside; cancels only when not paused |
| StationCode.Station.SeekBy | internal/playback/station.go:311-317 | is a seek from the reported position: same target, same refusal, same cancellation |
| StationCode.Station.CurrentPositionSeconds | internal/playback/station.go:321-329 | the offset, plus the whole seconds since the anchor while not paused |
| StationCode.Station.SetCurrent | internal/playback/station.go:472-482 | resets everything but the skip |
| StationCode.Station.ConsumeSkipRequested | internal/playback/station.go:361-369 | hands the skip over at most once |
| StationCode.Station.ConsumeSeekOffsetBytes | internal/playback/station.go:336-345 | hands the pending seek over at most once, in bytes |
| StationCode.Station.StreamFile | internal/playback/player.go:196-272 | the streaming loop makes a run of the player's transition system, hands over exactly the file's bytes from its start offset on, as many as it returns (or nothing but silence), and leaves no stream registered |
| StationCode.Station.HoldPause | internal/playback/player.go:158-174 | the hold sends nothing but silence, returns the offset it was given, or the last seek it applied, and leaves by resuming, a skip or a stop |
| StationCode.Station.PlayLocalItem | internal/playback/player.go:132-178 | the loops over the object's fields make exactly a run of the transition system and send exactly its log, whatever the schedule; so the bytes are conserved, and "completed" means the end was reached |
| OnAir.RunsTheLoop | internal/playback/player.go:39-116 | the outer loop with the player inside it makes a run of the outer loop's own system, so the event grammar and the item ledger hold of whole-station runs |
| OnAir.InvRun | internal/playback/player.go:97-113 | in every state of every whole-station run the item on the air is a run of the player from its entry, the current item is the one on the air, and between items the player is at rest |
| OnAir.TrackEndTellsTheTruth | internal/playback/player.go:100-113 | whenever a local track is about to be announced as ended, its bytes were conserved, "completed" means it was heard to its end, without seeks that it was heard whole, once and in order, and with a true positive duration no seek left the file |
| OnAir.OneFlagEach | internal/playback/station.go:361-369 | over any run, the items that took a skip flag and the flag itself if up are no more than the Interrupts made, and a flag nobody took stays up, across any number of items |
| OnAir.WhyInterrupted | internal/playback/player.go:142-174 | over any run with no stop so far, every local item announced as interrupted took a skip flag, or was cut with no skip, seek or pause to be found |
| OnAir.LeftoverSkip | internal/playback/station.go:472-482 | an item that comes on with the flag up plays straight from its start: no Pause or Seek takes effect, a prefix of the file is heard, all of it if it completes, and it is over the first time its stream is cut |
| OnAir.CutEndsItem | internal/playback/station.go:195-216 | in any whole-station run, an Interrupt that finds a local item's stream in flight ends that item, and with the flag up, whomever it was meant for, so does any cancellation of one (a late half, a Pause, a Seek): at most one more chunk, and never announced as completed |
| OneInterrupt.LateInterruptEndsNextItem | internal/playback/station.go:195-216 | from any state reading a local item with another ready behind it, one Interrupt whose cancellation is late lets the first complete and ends the second |
| OneInterrupt.InterruptEndsTwoItems | internal/playback/player.go:148-155 | from any state at the question for a seek or a pause with another item ready, one Interrupt ends both items |
| OneInterrupt.LateFromStart | internal/playback/player.go:39-116 | the first happens from the start of any station, for any two local items |
| OneInterrupt.BothFromStart | internal/playback/player.go:39-116 | and so does the second, to an item that a Pause would have held |
| PlayQueue.Queue.Append | internal/playback/queue.go:119-124 | adds at the back and returns the position |
| PlayQueue.Queue.PushFront | internal/playback/queue.go:130-134 | adds at the front |
| PlayQueue.Queue.PopFront | internal/playback/queue.go:137-146 | takes the first item, or reports that there is none |
| PlayQueue.Queue.Remove | internal/playback/queue.go:150-160 | removes the first item with that id and nothing else, and reports whether it did |
| PlayQueue.Queue.SkipTo | internal/playback/queue.go:165-175 | drops and counts exactly what is ahead of the item, which is then at the head; or nothing when it is not pending |
| PlayQueue.Queue.Clear | internal/playback/queue.go:178-184 | removes everything and counts it |
| PlayQueue.FirstIndex | internal/playback/queue.go:153-158 | the first place of an id, or the length when it is absent |
| RunLoop.SkipToEffect | internal/playback/queue.go:165-175 | in the loop's system, the item skipped to is at the head, and exactly what was ahead of it is dropped |
| RunLoop.RemoveEffect | internal/playback/queue.go:150-160 | in the loop's system, the first item with that id is dropped, once, and nothing else moves |
| RunLoop.AddEffects | internal/playback/queue.go:119-134 | in the loop's system, items are added at the back or at the front, clearing drops all in order, and the first outcome of an item stays |
| RunLoop.TakesTheFirst | internal/playback/player.go:43-58 | the loop is left only when stopped; an empty queue means silence, told once; otherwise the first item is taken and the new length told |
| RunLoop.WaitsUntilReady | internal/playback/player.go:60-84 | a settled item goes on at once; any other is waited for, in silence, until it is settled, the station is stopped, or the silence returns early |
| RunLoop.JudgesByOutcome | internal/playback/player.go:86-115 | an item whose prefetch failed is reported and the loop goes on without it; any other ends the silence, starts, plays, ends and is recorded with its reason |
| RunLoop.OnlyGoodItemsStart | internal/playback/player.go:86-98 | over every run, a track that started had its prefetch succeed unless its wait was cut, and an item reported as an error had it fail |
| RunLoop.SilenceIsTold | internal/playback/player.go:45-72 | over every run, silence is open while there is nothing to play and closed while a track is on, and the loop is left only when stopped |
| RunLoop.EventGrammar | internal/playback/player.go:39-116 | at every position of every run's events: silence starts and ends strictly in turn, a track starts right after each silence ends and never inside one, and a started track is followed at once by its own end |
| RunLoop.HistoryIsLastTwenty | internal/playback/station.go:438-445 | at the head of the loop the history is what the last twenty track ends among the events say, or all of them if there were fewer, in order, with their reasons |
| RunLoop.StartedWereReady | internal/playback/player.go:60-98 | every track that started was settled first, unless an interruption cut its wait |
| RunLoop.CutWaitStartsUnready | internal/playback/player.go:73-98 | from any wait on an unsettled item, a silence stream that returns early, for whatever reason, starts that item unsettled |
| RunLoop.EventRun | internal/playback/player.go:39-116 | the loop's silence flag, program point and history agree with the events published, in every state of every run |
| Ledger.EveryItemInOnePlace | internal/grpcapi/server.go:203-213 | under any interleaving of queue operations with the loop, an item ever queued is in exactly one of pending, dropped, reported as an error, played, or in hand; no other item is anywhere; nothing starts twice or after being dropped |
| Ledger.ServedInOrder | internal/playback/queue.go:119-184 | once a is ahead of b, then as long as a is pending b is pending behind it or dropped, and was not taken by the player |
| Ledger.PendingOnce | internal/playback/queue.go:119-134 | no item is pending twice |
| Ledger.QueueOpBalanced | internal/playback/queue.go:150-184 | each queue operation moves items between places and loses none |
| Ledger.PlayerBalanced | internal/playback/player.go:43-115 | each step of the loop moves its item from one place to the next and loses none |
| RadioCode.Radio.Run | internal/playback/player.go:39-116 | the loop over the queue object makes a run of the transition system, whatever the schedule; what it publishes is grammatical, its history is the last twenty ends, what it reports as an error had failed, and what it starts had not, unless its wait was cut |
| RadioCode.Radio.RecordHistory | internal/playback/station.go:438-445 | appending and trimming keeps the history equal to the run's |
| QueueLow.RisesBetweenFirings | internal/playback/station.go:411-425 | between two firings, some call that read a length above the threshold swapped the flag |
| QueueLow.FiringsAreRisingEdges | internal/playback/station.go:411-425 | firings are exactly the falls to the threshold along the lengths in the order of the swaps |
| QueueLow.SequentialLengths | internal/playback/station.go:411-425 | run one at a time, those lengths are the queue's own |
| QueueLow.Flag.QueueChanged | internal/playback/station.go:411-425 | a whole call is one read and one swap of the concurrent system, and fires exactly when that swap does; nothing happens when the threshold is off |
| Broadcast.SafeStep | internal/playback/broadcaster.go:45-123 | every operation keeps a channel open exactly while its id is connected, ids unused again, and never sends to or closes a closed channel |
| Broadcast.WriteEffect | internal/playback/broadcaster.go:81-104 | a write puts the chunk into every channel with fewer than 64 waiting, counts a drop for the others, and disconnects at the fifth drop in a row, and does nothing else |
| Broadcast.ChannelsChange | internal/playback/broadcaster.go:45-123 | subscribing opens an empty channel under a new id; unsubscribing and closing disconnect and close exactly the channels concerned, with what waits in them left to be read |
| Broadcast.Run | internal/playback/broadcaster.go:45-123 | all of that after any sequence of subscribes, unsubscribes (repeated ones too), writes, receives and closings |
| Broadcast.ListenersAreIndependent | internal/playback/broadcaster.go:81-104 | a listener's buffer, drop count and connection after any run are those of a listener alone, fed the same writes and its own receives |
| Broadcast.SubscribeStarts | internal/playback/broadcaster.go:45-53 | a new listener starts connected, empty, with no drops, under an id never used before |
| Broadcast.StalledListener | internal/playback/broadcaster.go:84-96 | a listener that stops reading with b chunks buffered gets the next 64 - b and is disconnected by exactly the (64 - b + 5)-th write |
| Broadcast.GapBound | internal/playback/broadcaster.go:45-104 | for every listener and every run of the broadcaster: what the listener received since it joined, then what is in its buffer, is the chunks written since, in order from the first, with at most four missing between neighbours, and at the end while it is connected |
| Broadcast.HeardIsReceived | internal/playback/broadcaster.go:81-104 | a listener traced on its own is offered exactly what is written to the hub and receives exactly what its channel there gives it |
| Broadcast.Broadcaster.SubscribeListener | internal/playback/broadcaster.go:45-53 | registers a new id with an empty channel |
| Broadcast.Broadcaster.UnsubscribeListener | internal/playback/broadcaster.go:60-74 | disconnects and closes once; again does nothing |
| Broadcast.Broadcaster.WriteChunk | internal/playback/broadcaster.go:81-104 | offering to listeners one by one, in any map order, does to every listener what the simultaneous write does, and reports whether the count changed |
| Broadcast.Broadcaster.CloseAllListeners | internal/playback/broadcaster.go:110-123 | disconnects and closes every listener, each once |
| EventBus.BusSafeStep | internal/playback/events.go:31-76 | every operation keeps channels open exactly while subscribed and never sends to or closes a closed one |
| EventBus.PublishDelivers | internal/playback/events.go:67-76 | an event reaches every subscriber with fewer than 16 waiting, and leaves a full one as it is |
| EventBus.ChannelsChange | internal/playback/events.go:31-63 | joining opens an empty channel under a new id; leaving and closing close exactly the channels concerned, with what waits in them left to be read |
| EventBus.HearsWhatFits | internal/playback/events.go:67-76 | for every subscriber and every run of the bus: what it read since it joined, then what waits in its channel, is the events published since, in order, less exactly those that found its channel full, or it gone |
| EventBus.NeverEvicted | internal/playback/events.go:67-76 | a subscriber leaves only by unsubscribing or when the bus closes, never for being slow |
| EventBus.EventBus.Subscribe | internal/playback/events.go:31-37 | registers a new id with an empty channel |
| EventBus.EventBus.Unsubscribe | internal/playback/events.go:39-49 | unsubscribes and closes once; again does nothing |
| EventBus.EventBus.PublishEvent | internal/playback/events.go:67-76 | puts the event into the channel of every subscriber with fewer than 16 waiting and skips the rest, in any map order |
| EventBus.EventBus.CloseAll | internal/playback/events.go:56-63 | closes every subscriber's channel once |
| Pool.PlacedRun | internal/transcode/job.go:39-111 | over any interleaving, a submitted item is in exactly one of the 64-slot buffer, one worker's hands, or settled, and its channel is closed once, when it settles |
| Pool.OutcomeIsFinal | internal/playback/queue.go:47-73 | a settled outcome never changes and its channel is never closed again |
| Pool.QueueFullIff | internal/transcode/job.go:102-111 | PREFETCH_QUEUE_FULL is given if and only if a new item finds the buffer full |
| Pool.FirstComeFirstServed | internal/transcode/job.go:39-43 | over any run, the items workers took up, then those in the buffer, are those the buffer took in, in order |
| Pool.PoolEffects | internal/transcode/job.go:39-111 | a new item goes to the back of the buffer while fewer than 64 are there and fails otherwise; an idle worker takes the front one; a busy one settles what it holds and nothing else |
| Pool.VerdictMeans | internal/transcode/job.go:45-93 | code by code what each result comes to: the three error codes, the live relay, and a cached file with its length in whole seconds, 0 when that cannot be told |
| Pool.PrefetchPool.Prefetch | internal/transcode/job.go:102-111 | never blocks: buffers the item untouched, or settles it with PREFETCH_QUEUE_FULL |
| Pool.PrefetchPool.Work | internal/transcode/job.go:39-43 | takes the oldest job and settles it, and touches no other item |
| Pool.QueuedItem.Process | internal/transcode/job.go:45-77 | settles the item exactly as resolving and transcoding came out, with the error code that belongs to it |
| Pool.QueuedItem.MarkReady | internal/playback/queue.go:47-52 | settles as playable, or as failed with the default code |
| Pool.QueuedItem.MarkFailed | internal/playback/queue.go:59-63 | settles as failed with the given code |
| Pool.QueuedItem.MarkLive | internal/playback/queue.go:69-73 | settles as a live relay |
| Cache.OneTranscodePerEntry | internal/transcode/cache.go:44-80 | over any interleaving of calls the file is never partial and published at most once, and once more for each flight whose own look missed it; the temporary file has one writer at a time, a caller that succeeds finds the file complete and one fails only after some I/O did, nobody waits when no flight is up, and then no temporary file remains, unless removing one failed |
| Cache.LandingShares | internal/transcode/cache.go:51-79 | when a flight lands, its leader and everyone who joined it return its result |
| Cache.LooksFirst | internal/transcode/cache.go:47-56 | a caller that finds the file returns at once; otherwise it leads the flight or joins the one that is up, and a leader that finds the file after all transcodes nothing |
| Cache.PublishedStays | internal/transcode/cache.go:47-56 | once published, the entry stays complete, and later renames and ffmpeg runs are no more than the flights whose own look missed it: none when no look did |
| Cache.Entry.GetOrTranscode | internal/transcode/cache.go:44-80 | a call on its own succeeds exactly when a look found the file or every step worked, and leaves a temporary file only if removing it failed |
| Paths.SafeRelPathExact | internal/audiosource/resolve.go:93-114 | a location is accepted if and only if walking it leads to the root or below; the relative path is then the segments below the root, all proper names, and the absolute path is the root followed by them |
| Paths.SafeRelPathIdempotent | internal/audiosource/resolve.go:93-114 | resolving the relative path gives the same relative and absolute paths again |
| Paths.DetoursVanish | internal/audiosource/resolve.go:99-113 | going into a name and back, a "." and a doubled separator lead nowhere else: the location resolves to the same relative and absolute paths as without |
| Paths.OutAndAbsolute | internal/audiosource/resolve.go:99-113 | ".." is refused; an absolute location is placed under the root, where climbing cannot leave it |
| Paths.FullIsResolution | internal/audiosource/resolve.go:99-100 | cleaning, joining to the root and cleaning again is walking the location from the root, segment by segment |
| Paths.RelIsRest | internal/audiosource/resolve.go:105-108 | the relative path is the rest below the root, or starts by climbing |
| Paths.ClimbsIff | internal/audiosource/resolve.go:106 | the string test for ".." finds exactly the paths whose first segment climbs |
| Auth.HasDirMeans | internal/auth/jwt.go:105-118 | over any entries without patterns, a path is authorized if and only if the scope is unrestricted, some cleanly written entry's segments are a prefix of the path's, or the path is the root and an entry is empty |
| Auth.HasDirIff | internal/auth/jwt.go:105-118 | for any pattern matching: granted exactly when the scope is empty, holds "*" or the path itself, or some entry is continued by the path past a separator or matches it as a pattern |
| Auth.CanBrowseIff | internal/auth/jwt.go:132-152 | for any pattern matching: browsable exactly when granted, the root, or continued by some entry past a separator |
| Auth.ClosedDownward | internal/auth/jwt.go:105-118 | whatever lies below an authorized path is authorized, over any entries without patterns, save below a root that an empty entry authorizes |
| Auth.ReachedFromRoot | internal/auth/jwt.go:132-152 | every directory from the root to an authorized path may be browsed, over any entries without patterns |
| Auth.NoDeadEnd | internal/auth/jwt.go:132-152 | over clean entries, a directory that may be browsed but is not authorized has an authorized entry strictly below it |
| Auth.NoDeadEndsIff | internal/auth/jwt.go:105-152 | over any entries without patterns, however written, every browsable directory is or leads to an authorized one, if and only if the root and the clean approach to each unclean entry meet a clean entry above or below |
| Auth.OneEntryIff | internal/auth/jwt.go:105-152 | a single entry has no dead ends if and only if it is empty, "*", or a clean path |
| Auth.TrailingSlashIsDeadEnd | internal/auth/jwt.go:132-142 | every clean path with a slash put after it may be browsed to, is a dead end, and authorizes nothing |
| Listing.ListDirectory | internal/grpcapi/server.go:473-528 | refuses a path outside the root, a missing one, a file, one out of scope and one that cannot be read, in that order; otherwise lists exactly the directories the token may browse and the files it is authorized for, in the order found, each with its own path from the root and its size |
| Listing.FilteredFrom | internal/grpcapi/server.go:500-525 | the listing holds exactly the entries the token may see, directories by browsing and files by authorization |
| Listing.EntryResolves | internal/grpcapi/server.go:502 | the path given with an entry resolves to itself, inside the directory listed |
| Listing.MayQueueIff | internal/grpcapi/server.go:171-183 | a local file passes the queueing check exactly when its location leads to the root or below and the token is authorized there, and is refused for the one reason or the other |
| Listing.ListedIsUsable | internal/grpcapi/server.go:171-183 | a listed file used as a location resolves to itself and passes the queueing check for the same token, and a listed directory may be listed in turn |

## Left out

- In `RunLoop.dfy` and `RadioCode.dfy` playing is one step that ends with either reason; only `OnAir.dfy` puts the player inside it, on values, and not the two objects into one another.
- Live relays and the silence between items: to a whole station they are streams that may stop at any moment; that an Interrupt stops them, and a relay's pipe reading and ffmpeg process, are left out.
- Pause, SeekPosition and SeekBy read the current item just before taking the mutex; here the reading and the critical section are one step. The position SeekBy reads is part of that step too.
- StationCode.Station.SetCurrent: storing the current item and resetting the guarded fields are one step here; the source does the first before it takes the mutex, so that a Seek between them is accepted and then erased. The same goes for coming on and going off in `OnAir.dfy`.
- RunLoop.CutWaitStartsUnready: the silence stream's early return is a free choice of the step, tied to no Interrupt or failure.
- The bitrate is taken to be positive: configuration replaces 0 by 128.
- 64-bit overflow and floating-point rounding: integers and the clock in nanoseconds are mathematical; truncation is kept where the code truncates.
- Silence chunks are counted; their content is not recorded.
- Item ids are numbers, a new one for each item, standing for UUIDs.
- Glob patterns: matching is any relation between entries and paths in the listing theorems, and adds nothing to equality in the browsing theorems, as a glob entry does not cover what lies below it.
- Listing: the missing-claims case.
- The calls' other checks (slug, write permission, registration) and the wire format of requests and answers.
- Listener count callbacks, but for the count a write would report.
- QueueLow.RisesBetweenFirings: the threshold is fixed during a run; changing it while calls are in progress is not modelled.
- Cache.OneTranscodePerEntry: one cache key; singleflight, a successful ffmpeg run and a successful rename are taken at their word, and nobody else deletes or writes the entry's files.
- Resolving a source to a file or a URL, downloading, and the live-stream detection cache: their result is a parameter of processing an item.
- Timers and scheduling: the clock moves by any amount between any two steps, so a wait may end late by any amount, and no bound on real time to act on a call is claimed.
- TapeDeck.PlaysLikeTapeDeck: calls are made one at a time to a settled player with no skip left over, because otherwise the deck is not what the code does (`HastyCalls.HastyPairs`, `OnAir.CutEndsItem`).
- HTTP and RPC transport, token signing, configuration, the station registry, status views and the Lua scripting engine: plumbing around the modelled core.
