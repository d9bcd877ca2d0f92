# Ferngeist gateway: reconnect machinery, modelled and proved

The gateway keeps agent processes alive while phone connections come and go. This project models the code that
makes that safe, as classes whose methods are the steps taken under one lock or by one goroutine, and proves what
those steps guarantee over every run.

| file | what it models |
|---|---|
| `ReplayBuffer.dfy`, `CatchUp.dfy`, `CatchUpTheorems.dfy` | The replay buffer of one session on values: numbering, eviction, retraction, catch-up; what each step keeps; what holds over whole runs |
| `LoadRecovery.dfy` | The class that holds those buffers in maps, with its loops, proved to be that specification |
| `Splice.dfy` | The stream a client sees from a catch-up reply on |
| `Names.dfy`, `RequestIds.dfy` | Request-id translation, generation-fenced replies, the agent's own open requests and their redelivery |
| `ClientQueues.dfy`, `Pump.dfy` | The pump: connection generations, the outbound queue, forwarding, restoring a session, answering a catch-up |
| `OutcomeStore.dfy`, `TurnSnapshot.dfy`, `TurnFeed.dfy` | Finished outcomes, the snapshot of running turns over them, and the feed of snapshots and changes to bounded subscribers |
| `Pairing.dfy`, `PairingTheorems.dfy`, `PairingService.dfy` | Credential rotation with a store that survives crashes; the theorems over runs; the class, its loops and its challenges |
| `RateLimiter.dfy` | The token buckets that guard pairing |
| `Framing.dfy` | Cutting agent output into frames |
| `Listing.dfy`, `Spares.dfy` | Single-flight listing with warm processes; pre-booted spare processes |
| `Sequences.dfy` | Filtering and mapping sequences, and other facts the modules share |

Times are numbers, ids of devices, processes and calls are numbers handed out in order, and random tokens are
drawn from an endless supply of fresh ones. Where a map is visited in Go, the order is left open. A ghost log,
where there is one, only records what happened: which steps a session took, what was routed to a connection, what
was sent to a subscriber, where every process is.

Five properties one might expect do not hold of the code as it is. For each the project says exactly when it does,
over every run, and shows a run in which it does not:

- A rejected prompt is taken back whole exactly when its first block is still buffered and the agent has not moved on
  (`CatchUpTheorems.RetractionWholeExactly`, `CatchUpTheorems.PartialRetraction`).
- A subscriber's first message leads it from its snapshot to the sample last taken, except when taking its snapshot ended
  every other subscription as too slow and no sample came since: then it takes the snapshot back
  (`TurnFeed.Feed.Ready`, `TurnFeed.ForgottenSnapshot`).
- Pairing reports success although the row was not saved. Such a device is stored exactly from the first refresh that saves,
  and a restart before that loses it for good (`PairingTheorems.UnsavedUntilRefreshed`, `PairingTheorems.UnsavedPairingLost`,
  `PairingTheorems.PairedInVain`).
- A revoked device is paired again exactly when its row outlived the revocation and a restart comes within its grace
  (`PairingTheorems.RevokedReturnsExactly`, `PairingTheorems.RevokedInVain`).
- When the lister's Close returns, every process it started is gone, exactly when no listing succeeded after its context
  had ended (`Listing.CloseReturned`, `Listing.ClosedAfterLastPage`).

## Model

| member | source | states |
|---|---|---|
| `CatchUpTheorems.CatchUpSound` | internal/session/load_recovery.go:229-254 | Over every run: what a client held at cursor c at any earlier moment, followed by what a gapless catch-up returns now, is the whole of today's log |
| `CatchUpTheorems.GapExactly` | internal/session/load_recovery.go:237-248 | A gap is reported if and only if the cursor was never handed out, an update past it was evicted or could not be numbered, or a client at that cursor once held an update since taken back |
| `CatchUpTheorems.HeldForGood` | internal/session/load_recovery.go:399-453 | Over every run, what a cursor covers never changes unless a retraction poisoned that very cursor |
| `CatchUpTheorems.MissedIsRest` | internal/session/load_recovery.go:245-253 | The frames of a gapless catch-up are exactly the part of the log past the cursor, in order |
| `CatchUpTheorems.PoisonedMeansHeldMore` | internal/session/load_recovery.go:437-453 | Every poisoned cursor did once cover an update that was taken back |
| `CatchUpTheorems.SameCover` | internal/session/load_recovery.go:444-452 | The pruned and merged ranges give each cursor not below the evicted mark the verdict of the plain list of everything ever poisoned |
| `CatchUp.InvalidateAllCovers` | internal/session/load_recovery.go:419-453 | Retracting a prompt's blocks, with the pruning and merging of ranges, keeps the ranges sorted and apart and adds exactly the interval of every block |
| `CatchUp.AppendKeeps` | internal/session/load_recovery.go:256-288 | An append keeps everything if it fits, else the longest tail that fits and does not open partway through a reply; the frame just appended survives; sizes and user counts stay exact |
| `CatchUp.CutLeast` | internal/session/load_recovery.go:274-281 | The two eviction loops together stop at the first position from which all fits and a replay may open |
| `CatchUp.AppendMark` | internal/session/load_recovery.go:290-302 | The evicted mark becomes the rank of the last frame dropped |
| `CatchUp.StepInv` | internal/session/load_recovery.go:169-453 | Every step, a rejection too, keeps the log ordered and numbered, the buffer accounted for, every range strictly below the head, and the head rising |
| `CatchUp.StepRecords` | internal/session/load_recovery.go:169-192 | Recording adds exactly its own frame to the log, whatever it evicts |
| `CatchUpTheorems.RunInv` | internal/session/load_recovery.go:162-453 | After every run of updates, prompts and rejections the log is ordered and numbered, the buffer accounted for, every range sorted, apart and strictly below the head |
| `CatchUpTheorems.Bounded` | internal/session/load_recovery.go:270-278 | After every run the buffer is within its cap, unless one frame alone exceeds it, and its byte count is the sum of its lines |
| `CatchUpTheorems.TruncatedExactly` | internal/session/load_recovery.go:282-287 | The trimmed flag is set exactly when the buffer is not the whole log |
| `CatchUpTheorems.RetractionWholeExactly` | internal/session/load_recovery.go:403-435 | Over every run: rejecting a prompt leaves none of it in the log if and only if its first block, known by the number it was buffered under, is still in the buffer and since then the agent sent no update and no client a block without an id |
| `CatchUpTheorems.RejectedExactly` | internal/session/load_recovery.go:403-435 | Over every run, in terms of what happened: while its first block is buffered, a rejected prompt is left as it is if and only if the agent sent an update, or a client a block without an id, since; otherwise the log loses exactly that prompt's blocks |
| `CatchUpTheorems.PartialRetraction` | internal/session/load_recovery.go:403-435 | A run in which it does not: a client at the evicted block keeps it, without a gap, although its prompt was taken back |
| `LoadRecovery.LoadRecovery.Record` | internal/session/load_recovery.go:169-192 | record takes the session through its next step, returns the line it buffered, and touches no other session |
| `LoadRecovery.LoadRecovery.BufferPrompt` | internal/session/load_recovery.go:194-227 | bufferPrompt records each block that encodes, numbered in a row and named for its prompt |
| `LoadRecovery.LoadRecovery.ChunksSplit` | internal/session/load_recovery.go:197-225 | The blocks of a prompt are numbered one after the other, and each only if it could be encoded |
| `LoadRecovery.LoadRecovery.AppendHistory` | internal/session/load_recovery.go:259-288 | appendHistoryLocked, loop by loop, is the append of the specification |
| `LoadRecovery.LoadRecovery.EvictOver` | internal/session/load_recovery.go:274-278 | The first loop evicts down to the cap and reports whether it evicted |
| `LoadRecovery.LoadRecovery.EvictUntilUser` | internal/session/load_recovery.go:279-281 | The second loop goes on to the next user message |
| `LoadRecovery.LoadRecovery.DropOldest` | internal/session/load_recovery.go:290-302 | dropOldestLocked updates history, size, user count and evicted mark of that session only |
| `LoadRecovery.LoadRecovery.CatchUp` | internal/session/load_recovery.go:233-254 | catchUp answers with the head, the gap verdict and the missed lines of the session's run |
| `LoadRecovery.LoadRecovery.InRanges` | internal/session/load_recovery.go:240-244 | The scan finds a poisoned range exactly when one covers the cursor |
| `LoadRecovery.LoadRecovery.After` | internal/session/load_recovery.go:245-253 | The scan returns every line past the cursor in order, or a gap exactly when an unnumbered frame is past it |
| `LoadRecovery.LoadRecovery.ForgetPrompt` | internal/session/load_recovery.go:403-435 | forgetPrompt, with its in-place filter, is the rejection step; nothing happens once agent updates followed |
| `LoadRecovery.LoadRecovery.IsFollowed` | internal/session/load_recovery.go:410-418 | The scan stops exactly when an update without a prompt id comes after a block of the prompt |
| `LoadRecovery.LoadRecovery.InvalidatePrompt` | internal/session/load_recovery.go:440-453 | invalidatePromptLocked's two loops are dropping shadowed ranges and merging |
| `LoadRecovery.LoadRecovery.OnFrame` | internal/session/load_recovery.go:105-160 | A rejected duplicate load is answered with the announcement, the whole buffer in order and the cached success with the current cursor; truncated is announced exactly when the buffer is not the whole conversation; anything else passes |
| `Splice.SpliceStarts` | internal/session/catch_up.go:56-70 | A gapless catch-up reply starts a seamless stream |
| `Splice.SpliceUpdate` | internal/session/pipeline.go:183-190 | A live update queued after the reply extends the stream by exactly that update |
| `Splice.SpliceBlock` | internal/session/load_recovery.go:200-227 | A buffered prompt block, with a prompt id or without, leaves the stream seamless |
| `Splice.SpliceReject` | internal/session/load_recovery.go:403-435 | Any rejection leaves the stream seamless: retractions take back prompts, never agent updates |
| `Pump.StdioPump.SeamlessStream` | internal/session/catch_up.go:43-72 | On one connection, the updates of a session sent live or by catch-up, from a catch-up reply on, are strictly ordered and hold every agent update past the cursor that still is part of the conversation, once, and no other |
| `Pump.StdioPump.EachCallOnce` | internal/session/request_ids.go:398-408 | The agent requests put on a connection's queue are pairwise distinct, and are exactly those on record as delivered to its generation since it was bound |
| `Pump.StdioPump.OwnReplies` | internal/session/request_ids.go:415-451 | In every state: a reply queued to a connection that answers a forwarded request answers one this very connection sent, under its client's own id, and no request is answered twice |
| `Names.AgentKeyNames` | internal/session/request_ids.go:126-127 | Different requests get different agent-side ids |
| `Names.OwnerKeyNames` | internal/session/request_ids.go:88-90 | An owner key names one client id of one connection generation |
| `RequestIds.NextIsFresh` | internal/session/request_ids.go:125-127 | The next agent-side id was never issued before |
| `RequestIds.RequestIDs.Outbound` | internal/session/request_ids.go:97-141 | A forwarded request gets an id no earlier one ever had, is pending, and is its owner's |
| `RequestIds.RequestIDs.RetargetCancel` | internal/session/request_ids.go:146-167 | A $/cancel_request is retargeted only to a live request of that very connection with that very client id; it is left alone exactly when the owner has none |
| `RequestIds.RequestIDs.Consume` | internal/session/request_ids.go:420-424 | A pending request ends once: it had no fate before |
| `RequestIds.RequestIDs.Discard` | internal/session/request_ids.go:347-359 | Discarding forgets that request and no other |
| `RequestIds.RequestIDs.TakePrompts` | internal/session/request_ids.go:328-343 | Teardown takes every pending prompt exactly once, and nothing else, in whatever order |
| `RequestIds.RequestIDs.Reply` | internal/session/request_ids.go:415-451 | A reply consumes its request once; for an earlier connection nothing goes out but a prompt's turn_ended, for the current one the last frame goes out under the id its client gave, the others untouched; a finished turn forgets exactly the agent requests of its session; anything else passes unchanged |
| `RequestIds.RequestIDs.TrackAgentRequest` | internal/session/request_ids.go:186-203 | Tracking replaces a request with the same key, forgets the oldest past 64, appends, and records its delivery |
| `RequestIds.TrackMeans` | internal/session/request_ids.go:186-203 | What is tracked: the new request last, before it those under other keys, without the oldest if they were 64 |
| `RequestIds.RequestIDs.DropAgentRequest` | internal/session/request_ids.go:236-244 | Removing in place by key removes exactly the request with it |
| `RequestIds.RequestIDs.AnswerAgentRequest` | internal/session/request_ids.go:225-232 | An answered request is gone, the others stay in order |
| `RequestIds.RequestIDs.DropSessionAgentRequests` | internal/session/request_ids.go:246-254 | A finished turn's requests are gone, the others stay in order |
| `RequestIds.RequestIDs.Redeliver` | internal/session/request_ids.go:398-408 | Appends every unanswered request of the session the connection was not sent, oldest first, marks them, and repeats no earlier delivery |
| `RequestIds.RedeliverOnce` | internal/session/request_ids.go:401-406 | No request is put on one connection twice, and afterwards the connection is owed nothing of the session |
| `RequestIds.RequestIDs.PromptStartedAt` | internal/session/request_ids.go:264-275 | The start of the session's latest pending prompt, or none exactly when there is no such prompt |
| `RequestIds.RequestIDs.LiveTurns` | internal/session/request_ids.go:286-315 | Lists exactly the sessions with a pending prompt, each once, with its latest start and its kinds of attention, sorted and distinct |
| `RequestIds.LiveMeans` | internal/session/request_ids.go:286-315 | A listed turn has the start of its session's latest prompt and exactly the kinds of input that agent requests of its session wait for |
| `ClientQueues.ClientQueue.Push` | internal/session/pump.go:60-74 | A frame is refused exactly when the backlog is not empty and would pass the cap; bytes stay exact; the backlog is within the cap or one frame |
| `ClientQueues.ClientQueue.PushAll` | internal/session/pump.go:324-339 | After a refusal nothing more is queued, so what is sent is a prefix of what was routed |
| `ClientQueues.ClientQueue.Take` | internal/session/pump.go:77-84 | The writer takes everything queued, in order |
| `Pump.StdioPump.Attach` | internal/session/pump.go:416-428 | Attaching makes a new generation current and unbinds the old connection |
| `Pump.StdioPump.Bind` | internal/session/pump.go:435-444 | Binds exactly when the generation is current and the pump open, with a fresh queue; else changes nothing |
| `Pump.StdioPump.Detach` | internal/session/pump.go:450-459 | A superseded generation detaches nothing |
| `Pump.StdioPump.WriteFailed` | internal/session/pump.go:522-533 | A failed write detaches only the connection it was for |
| `Pump.StdioPump.Close` | internal/session/pump.go:233-238 | Once the agent is gone nothing is queued and nobody binds |
| `Pump.StdioPump.LiveTurns` | internal/session/pump.go:557-569 | A running status for each chat with a pending prompt, once, with its latest start and its attention |
| `Pump.StdioPump.Queue` | internal/session/pump.go:324-339 | Overflow disconnects the client; its frames stay a prefix of those routed |
| `Pump.StdioPump.ForwardUpdate` | internal/session/pipeline.go:183-190 | An update is numbered, buffered and queued in one step, and keeps every splice seamless |
| `Pump.StdioPump.ForwardReply` | internal/session/pipeline.go:191-230 | A reply goes out as routed; one that restores a session carries the missed result before it and what the agent still waits for after it, so that nothing of that session is left undelivered to this connection; a prompt's result is kept when nobody is bound |
| `Pump.StdioPump.ForwardRequest` | internal/session/pipeline.go:217-225 | The agent's request is tracked as delivered to the bound generation, or to none, and put there once |
| `Pump.StdioPump.ForwardNotice` | internal/session/pipeline.go:222-225 | Any other frame is queued as it is |
| `Pump.StdioPump.Restore` | internal/session/pipeline.go:237-249 | Restoring redelivers the session's owed requests to the current connection, marks them, and uses up the kept result |
| `Pump.RestoreSays` | internal/session/pipeline.go:237-249 | A kept result goes just before the reply that restores its session, the owed requests after it |
| `Pump.StdioPump.AnswerCatchUp` | internal/session/catch_up.go:49-72 | Only the current bound generation is answered: replay, result, reply, owed requests in one step, or the reply alone on a gap; a superseded one changes nothing |
| `Pump.StdioPump.Translate` | internal/session/pipeline.go:297-304 | A request gets a fresh id and a prompt clears the session's kept result |
| `Pump.StdioPump.BufferPrompt` | internal/session/pipeline.go:305-307 | Buffering a prompt records its blocks and keeps every splice seamless |
| `Pump.StdioPump.RejectPrompt` | internal/session/pipeline.go:123-126 | A rejected prompt is withdrawn and keeps every splice seamless |
| `OutcomeStore.LatestWins` | internal/turns/store.go:88-101 | While no more chats than the cap ever finished, each chat's stored outcome is that of the turn that started last, whatever order the replies came in |
| `OutcomeStore.StoredTurn` | internal/turns/store.go:88-101 | In terms of the turns: a chat's outcome is the turn that started last and, of those that started together, was recorded last |
| `OutcomeStore.OrderIrrelevant` | internal/turns/store.go:85-101 | Two histories with the same turns, no two of a chat starting together, store the same outcomes |
| `OutcomeStore.LatestUnique` | internal/turns/store.go:94-96 | Which turn of a chat is its latest is determined |
| `OutcomeStore.StoredChats` | internal/turns/store.go:88-101 | Below the cap exactly the chats that finished a turn are stored |
| `OutcomeStore.EvictsOldest` | internal/turns/store.go:97-100 | At the cap a new chat replaces exactly the outcome least by age |
| `OutcomeStore.EvictsEarliest` | internal/turns/store.go:103-120 | The evicted outcome changed no later than any other |
| `OutcomeStore.OldestUnique` | internal/turns/store.go:103-115 | There is one oldest outcome, so the scan order is irrelevant |
| `OutcomeStore.AgeOrder` | internal/turns/store.go:117-120 | compareAge is antisymmetric and never ties two chats |
| `OutcomeStore.AgeChain` | internal/turns/store.go:117-120 | compareAge is transitive |
| `OutcomeStore.Store.Record` | internal/turns/store.go:88-101 | Record takes the store through its next step and keeps it within the cap |
| `OutcomeStore.Store.OldestLocked` | internal/turns/store.go:106-115 | The scan finds the least outcome |
| `OutcomeStore.Store.Snapshot` | internal/turns/store.go:125-144 | Every running turn and every stored outcome no running turn hides, in key order; over distinct running turns keys are distinct |
| `OutcomeStore.KeyMeans` | internal/turns/store.go:139-142 | A snapshot's order is by agent id, then session id, then gateway session id, each as in a dictionary |
| `OutcomeStore.ListsMeans` | internal/turns/store.go:125-138 | A snapshot lists an entry if and only if it is running, or stored for a chat in which nothing runs |
| `OutcomeStore.SnapshotUnique` | internal/turns/store.go:139-142 | Sorted by distinct keys, a list is determined by its entries |
| `TurnSnapshot.RuntimeSession.TurnSnapshot` | internal/session/lifecycle.go:745-760 | The snapshot lists no chat twice and is sorted: every running turn of every registered pump, and each stored outcome none of them hides |
| `TurnSnapshot.CollectNext` | internal/session/lifecycle.go:756-759 | Adding one more pump's running turns lists that pump's chats too, and keeps all keys distinct |
| `TurnSnapshot.RuntimeSession.Launch` | internal/session/lifecycle.go:100-143 | A session is registered under the id its pump reports turns with, so pumps never share a gateway session id |
| `TurnSnapshot.RuntimeSession.Subscribe` | internal/session/session.go:209-209 | The feed's samples are these snapshots, so each meets the feed's terms; a subscriber's snapshot is the turns of that moment |
| `TurnSnapshot.RuntimeSession.Sample` | internal/session/session.go:209-209 | So does each later sample: while anybody subscribes, what the feed last published lists no chat twice |
| `TurnFeed.DiffApplies` | internal/turns/feed.go:339-359 | Applying the difference of two samples to the first gives the second |
| `TurnFeed.DiffMinimal` | internal/turns/feed.go:339-359 | A change carries exactly the entries the last sample did not have, in the new sample's order, and the keys of the chats that are gone |
| `TurnFeed.DiffAppliesExactly` | internal/turns/feed.go:339-359 | For arbitrary lists, more than the feed ever sees, that holds if and only if no key left unchanged is listed with a second, different entry |
| `TurnFeed.CatchUpComposes` | internal/turns/feed.go:428-431 | One catch-up equals the composition of every sample skipped |
| `TurnFeed.SameStatus` | internal/turns/feed.go:365-373 | sameStatus is equality of all members |
| `TurnFeed.DiffTurns` | internal/turns/feed.go:339-359 | The three loops compute the difference, in snapshot order |
| `TurnFeed.Subscription.CaughtUp` | internal/turns/feed.go:279-301 | A reader that took every change it was sent shows exactly what the feed last published |
| `TurnFeed.Subscription.TrySend` | internal/turns/feed.go:294-298 | A change is queued exactly when fewer than 16 wait, and never on a closed channel |
| `TurnFeed.Subscription.Shut` | internal/turns/feed.go:317-330 | Ending drops the backlog and closes the channel, once |
| `TurnFeed.Subscription.Open` | internal/turns/feed.go:431-435 | The catch-up always finds room |
| `TurnFeed.Subscription.Receive` | internal/turns/feed.go:241-241 | A reader takes changes in the order sent |
| `TurnFeed.Feed.Sample` | internal/turns/feed.go:281-301 | A sample goes to every active subscription with room and ends the others, whatever order they are visited in; snapshot plus changes still is the last sample for each; the sample is forgotten exactly when that ended the last one |
| `TurnFeed.Feed.Subscribe` | internal/turns/feed.go:392-415 | Refused exactly when cancelled or full; else the sample is the snapshot, and it is still the last one exactly unless taking it ended every other subscription as too slow |
| `TurnFeed.Feed.Ready` | internal/turns/feed.go:422-440 | One consolidated catch-up, then the device's limit: only its oldest stream ends, and only for a fifth one. Over every run the catch-up leads to the sample last taken, unless the subscriber's own snapshot was forgotten on arrival and no sample came since: it takes back all that was shown if and only if that is so, or the sample is empty |
| `TurnFeed.ForgottenSnapshot` | internal/turns/feed.go:284-333 | A run in which it does: a reader with 16 unread changes is ended by the sample of a second subscriber, whose first message then removes its whole snapshot |
| `TurnFeed.Feed.End` | internal/turns/feed.go:304-334 | Ends a subscription once and frees its slots; the last one to go clears the last sample |
| `TurnFeed.Feed.Close` | internal/turns/feed.go:264-277 | Closing ends just that subscription; closing again changes nothing |
| `TurnFeed.Feed.Poke` | internal/turns/feed.go:174-184 | A poke schedules one sample, or forgets the last one when nobody subscribes |
| `TurnFeed.Feed.Window` | internal/turns/feed.go:185-187 | The scheduled sample is taken once |
| `TurnFeed.Feed.Backstop` | internal/turns/feed.go:188-191 | A quiet feed is sampled only while somebody subscribes |
| `TurnFeed.Feed.Stop` | internal/turns/feed.go:167-171 | Stopping ends every subscription with ErrStopped |
| `TurnFeed.Feed.Resources` | internal/turns/feed.go:23-32 | Never more than 256 subscriptions, 4 streams a device, 16 changes queued; the counter is exact; byDevice lists exactly the active subscriptions, in ready order; every subscription still booked is open |
| `PairingTheorems.RunHolds` | internal/pairing/service.go:437-537 | Over every run of refreshes, lost responses, failed saves, crashes between save and commit, and restarts: the last token a device received is live, or exchangeable until the very deadline its first rotation set, in memory and in the store |
| `PairingTheorems.Exchangeable` | internal/pairing/service.go:437-537 | A token held so can be exchanged, strictly before its deadline, for one that validates |
| `PairingTheorems.RefreshGrantedExactly` | internal/pairing/service.go:437-537 | A refresh with the live token that saves is granted if and only if now is at most the expiry plus the grace period, for a new token of full lifetime, the old one staying exchangeable for 48 hours; otherwise the device is deleted |
| `PairingTheorems.RetiredGrantedExactly` | internal/pairing/service.go:456-476 | A refresh with a retired token is granted if and only if its deadline is not past and the device is within its grace |
| `PairingTheorems.PruneKeepsExactly` | internal/pairing/service.go:626-669 | Pruning keeps a device if and only if now is at most the expiry plus the grace period |
| `PairingTheorems.LoadKeepsExactly` | internal/pairing/service.go:743-815 | A restart keeps a device if and only if its row is stored and now is at most the row's expiry plus the grace period; a plainly stored token is hashed |
| `PairingTheorems.ValidateKeepsExactly` | internal/pairing/service.go:392-435 | A validation is granted exactly until the expiry, and deletes an expired device exactly if there is no grace |
| `PairingTheorems.LookedUpExactly` | internal/pairing/service.go:545-567 | A token is looked up as a device's exactly while it is its live one, or a retired one of it before its deadline |
| `PairingTheorems.FirstToken` | internal/pairing/service.go:313-348 | A device paired with its row saved holds a live token, in memory and in the store |
| `PairingTheorems.ValidatesLikeScan` | internal/pairing/service.go:400-415 | Validation by the index grants exactly what a scan of all credentials would |
| `PairingTheorems.RetiredNeverValidates` | internal/pairing/service.go:129-133 | A retired token never validates |
| `PairingTheorems.UnpairedReturnsExactly` | internal/pairing/service.go:743-780 | Over every run from any sound state, a device that is not paired is paired again at some moment if and only if the store has its row and a restart, after a crash or otherwise, comes within the row's grace; no other call pairs it or touches the row |
| `PairingTheorems.RevokedReturnsExactly` | internal/pairing/service.go:598-690 | So a revoked device is paired again if and only if its row is still stored after the revocation and a restart follows within the row's grace |
| `PairingTheorems.PairedIsGranted` | internal/pairing/service.go:545-567 | A device is paired exactly when some token is accepted as its own |
| `PairingTheorems.UnsavedUntilRefreshed` | internal/pairing/service.go:324-537 | Over every run after a pairing whose save failed, the store has a row of the device at some moment if and only if a refresh of its token saves, within its grace, before any restart and before the device is revoked |
| `PairingTheorems.UnsavedPairingLost` | internal/pairing/service.go:324-780 | If a restart comes first, the device is never paired again, whatever happens later |
| `PairingTheorems.PairedInVain` | internal/pairing/service.go:324-335 | A run that loses a device which was told it is paired |
| `PairingTheorems.RevokedInVain` | internal/pairing/service.go:671-690 | A run that pairs a revoked device again |
| `Pairing.RefreshInv` | internal/pairing/service.go:437-537 | A refresh keeps index, retired hashes and rows in agreement; after a crash the rows alone are sound |
| `Pairing.LoadInv` | internal/pairing/service.go:743-796 | A restart from any sound rows brings them into agreement |
| `PairingService.Service.RefreshCredential` | internal/pairing/service.go:437-537 | The method is the specified refresh |
| `PairingService.Service.RotateCredential` | internal/pairing/service.go:477-536 | A rotation that saves before it commits is the specified one; a failed save leaves the old credential in place |
| `PairingService.Service.ValidateCredential` | internal/pairing/service.go:392-435 | The method is the specified validation |
| `PairingService.Service.LookupCredentialByToken` | internal/pairing/service.go:545-567 | The method is the specified lookup and changes nothing |
| `PairingService.Service.ScanUnhashed` | internal/pairing/service.go:416-431 | The legacy scan finds nothing |
| `PairingService.Service.RevokeDevice` | internal/pairing/service.go:598-608 | Revoking deletes exactly that device |
| `PairingService.Service.DeleteCredential` | internal/pairing/service.go:671-690 | Index entry, credential, retired hashes and row of that device go, whatever order the map is visited in |
| `PairingService.Service.PruneExpiredCredentials` | internal/pairing/service.go:626-633 | Every credential past its grace goes, in whatever order |
| `PairingService.Service.PruneRetiredTokens` | internal/pairing/service.go:635-641 | Every retired hash past its deadline goes, in whatever order |
| `PairingService.Service.LoadPersistedCredentials` | internal/pairing/service.go:743-796 | Loading row by row, in whatever order, is the specified restart |
| `PairingService.Service.constructor` | internal/pairing/service.go:158-186 | A restarted service holds what its rows say and no challenge |
| `PairingService.Service.StartPairing` | internal/pairing/service.go:195-220 | Refused if and only if no challenge is active within its time and the gateway is not armed; refused, it stays disarmed; granted, what it was armed until stays; a new challenge is opened only while armed |
| `PairingService.Service.Arm` | internal/pairing/service.go:225-228 | A local approval arms the gateway for the configured time from now |
| `PairingService.Service.StartPairingWithLocalApproval` | internal/pairing/service.go:224-230 | Unless it takes longer than the armed time, a local approval opens a challenge or finds one open |
| `PairingService.Service.OpenedUnderApproval` | internal/pairing/service.go:195-230 | Over every run: each challenge was opened within the armed time of a local approval that no completed pairing had used up since |
| `PairingService.Service.CompletePairing` | internal/pairing/service.go:294-349 | A challenge is settled if and only if it is active, not lapsed and the code is right, never a second time, and yields the specified credential; otherwise exactly which error is answered, and what becomes of the challenges |
| `PairingService.Service.ResolveChallenge` | internal/pairing/service.go:351-379 | Which challenge an id, or none, names; otherwise which of the two errors is answered, and that only an overdue challenge is marked |
| `PairingService.Service.CancelChallenge` | internal/pairing/service.go:256-283 | Exactly the named or active challenge is cancelled, if it still is active; the others stay as pruning leaves them |
| `PairingService.Service.ExpireChallenge` | internal/pairing/service.go:722-729 | A lapsed challenge is no longer active |
| `PairingService.Service.PruneExpired` | internal/pairing/service.go:610-624 | Lapsed challenges are marked and old ones forgotten, in whatever order; the active one stays active unless it lapsed |
| `RateLimiter.PairingRateLimiter.Allow` | internal/api/pairing_ratelimit.go:75-107 | Over every run: a request is refused only if some window ending now let through more than the burst less one plus what it refilled, for its address or for everybody; it is let through only if everybody's windows leave room and, as long as no earlier request left its bucket unstored, its address's do; till then the answer is that of a limiter that never forgets a bucket |
| `RateLimiter.PairingRateLimiter.Tracked` | internal/api/pairing_ratelimit.go:115-129 | With no more addresses than are tracked no request leaves its bucket unstored |
| `RateLimiter.PairingRateLimiter.Throttled` | internal/api/pairing_ratelimit.go:173-196 | Always, the starts (or completions) let through between any two of them are at most the burst plus what was refilled in between |
| `RateLimiter.AnyWindow` | internal/api/pairing_ratelimit.go:173-196 | In any window of time, what was let through in it is at most the burst plus what the window refills |
| `RateLimiter.SweepAgrees` | internal/api/pairing_ratelimit.go:142-161 | Sweeping idle buckets cannot be told from keeping them |
| `RateLimiter.IdleIsNew` | internal/api/pairing_ratelimit.go:163-171 | A bucket idle for its refill window answers like a new one |
| `RateLimiter.OneRefills` | internal/api/pairing_ratelimit.go:173-196 | A bucket that had the time to refill one token lets the next request through |
| `RateLimiter.PairingRateLimiter.LoadBucket` | internal/api/pairing_ratelimit.go:115-129 | The address's bucket, and whether there is room for it |
| `RateLimiter.PairingRateLimiter.SweepIdle` | internal/api/pairing_ratelimit.go:148-152 | The loop drops exactly the buckets idle for the given time |
| `Framing.FramesOfWritten` | internal/session/pump.go:263-273 | Reading back any lines gives exactly those that fit, whole and in order; a longer one is dropped whole and takes nothing with it |
| `Framing.ReadStdoutFrame` | internal/session/pump.go:274-311 | However the input is fragmented: the next line whole if it is at most max bytes, exactly max included, else dropped; never more than max bytes are kept |
| `Framing.DrainStdout` | internal/session/pump.go:202-225 | The frames handed on are those of the whole stream |
| `Spares.SpareKeyNames` | internal/runtime/spare.go:36-40 | Equal spare keys mean equal launches |
| `Spares.CloseReturned` | internal/runtime/spare.go:135-150 | When Close returns no spare is parked, starting, in a claim or being discarded: every process was handed out or is gone |
| `Spares.OneEach` | internal/runtime/spare.go:79-88 | Until Close an agent has at most one spare, parked or starting |
| `Spares.Supervisor.EnableSpares` | internal/runtime/spare.go:28-34 | Enabling spares keeps the books sound, after Close too |
| `Spares.Supervisor.TakeSpare` | internal/runtime/spare.go:42-57 | Takes the spare that has a process, if any, so nobody else can |
| `Spares.Supervisor.FinishClaim` | internal/runtime/spare.go:58-75 | Hands the process over exactly when it is alive and its key is the one wanted, else discards it |
| `Spares.Supervisor.RefillSpare` | internal/runtime/spare.go:79-88 | Starts a spare exactly when spares are on, there is none and the supervisor is open |
| `Spares.Supervisor.SpawnDone` | internal/runtime/spare.go:90-118 | A started process is parked until Close, and discarded after |
| `Spares.Supervisor.IdleFired` | internal/runtime/spare.go:105-116 | The timer takes away its own spare only |
| `Spares.Supervisor.DiscardDone` | internal/runtime/spare.go:124-133 | A discarded process was not gone before |
| `Spares.Supervisor.BeginClose` | internal/runtime/spare.go:137-142 | Close takes all spares at once |
| `Spares.Supervisor.CloseDiscard` | internal/runtime/spare.go:143-148 | Close discards what it took, each once |
| `Listing.SingleFlight` | internal/projects/queue.go:64-99 | At most one call of an agent is between admission and completion |
| `Listing.AtMostFour` | internal/projects/lister.go:131-131 | At no time do more than four calls hold a slot |
| `Listing.Lister.Enter` | internal/projects/queue.go:18-41 | A requester is refused, answered from a fresh cache line, or counted in at the agent's one call, or begins it; nothing else changes |
| `Listing.Lister.Release` | internal/projects/queue.go:51-62 | The last requester to leave a call not yet admitted cancels it and takes it back |
| `Listing.Lister.AcquireSlot` | internal/projects/queue.go:86-90 | At most four calls hold slots |
| `Listing.Lister.GiveUp` | internal/projects/queue.go:86-90 | A cancelled call stops waiting for a slot |
| `Listing.Lister.Admit` | internal/projects/queue.go:91-98 | A call is admitted if and only if it is not cancelled, the lister is open and somebody waits for it; an abandoned call never starts |
| `Listing.Lister.Take` | internal/projects/lister.go:236-249 | An admitted call takes its agent's parked process |
| `Listing.Lister.Start` | internal/projects/lister.go:250-275 | Without one, it starts a process that never existed before |
| `Listing.Lister.Discard` | internal/projects/lister.go:299-308 | A dead or failing process is stopped in the background |
| `Listing.Lister.StartFailed` | internal/projects/lister.go:250-257 | A call may end without a process |
| `Listing.Lister.Judge` | internal/projects/lister.go:189-206 | A listing that succeeded passes if and only if its context has not ended; if it has, the call fails and its process is neither parked nor stopped |
| `Listing.Lister.KeepWarm` | internal/projects/lister.go:278-297 | Parking never overwrites a parked process, for no other call of the agent uses one; once closed the process is stopped instead |
| `Listing.Lister.FreeSlot` | internal/projects/queue.go:67-69 | The slot is given back once the listing is over, and its line stands |
| `Listing.Lister.Finish` | internal/projects/queue.go:73-82 | The call's line is set and its done closed, once; it is cached exactly when the call is still current, not cancelled, and the lister open |
| `Listing.DoneLine` | internal/projects/queue.go:64-83 | Over every run: what a done call answers is the line its own full listing got, or a failure if it had none |
| `Listing.Lister.Expire` | internal/projects/lister.go:288-295 | The warm timer stops its own process only |
| `Listing.Lister.Relieve` | internal/projects/resources.go:47-61 | Under pressure the process unused for longest is stopped |
| `Listing.Lister.Stopped` | internal/projects/lister.go:306-308 | A stopped process is gone |
| `Listing.Lister.BeginClose` | internal/projects/lister.go:312-326 | Close cancels every outstanding call and takes every parked process away to be stopped, and changes nothing else |
| `Listing.CloseReturned` | internal/projects/lister.go:327-332 | When Close returns no slot is held and nothing is parked; every process is gone or was left running, and all are gone if and only if no successful listing found its context ended |
| `Listing.ClosedAfterLastPage` | internal/projects/lister.go:189-206 | A run in which Close, between an agent's last page and the look at the context, returns with the process still running |

## Left out

- JSON: whether an update can carry a number, and what numbering makes of its line, is a parameter of `LoadRecovery`, and so is the line built for a prompt block; responses are kept as an id and a line. Merging metadata, the duration added to a prompt's result and the rewriting of a scoped elicitation are not modelled.
- The turn state in a catch-up reply (its turnActive members); `RequestIds.RequestIDs.PromptStartedAt` is what it is computed from.
- Pump.StdioPump.SeamlessStream: a later session/load that is answered from the buffer on the same connection repeats updates; that replay (`Restored` frames, which `LoadRecovery.LoadRecovery.OnFrame` specifies) is not part of the stream it speaks of.
- What the stages before forward make of a reply holds no live update and no request of the agent (`Pump.StdioPump.ForwardReply`).
- Frames that are an update and a reply at once. A frame of the agent is taken as an update, a reply, a request or a notice.
- The stages of prepareOutbound and the write to the agent, between which other steps may come, are separate methods; a run may interleave them.
- Updates in place that alias: the filters that reuse their input's storage (forgetPrompt, dropSessionAgentRequestsLocked) build a new sequence here.
- Widths of integers: sequence numbers, generations and counters are unbounded.
- Initialize replay, duplicate prompts, the ACP state and swallowed failures; push notifications; logs.
- The serial of an agent request, the numbers of spares, calls and processes, and every ghost field are the model's own.
- Reading a channel, closing it and sending on it are a sequence and a flag. Subscribe's hand-over of a reservation whose caller gave up meanwhile is a Close.
- PairingService.Service.StartPairingWithLocalApproval: states what an approval does when no other call comes between its two halves; with one in between, the halves are `Arm` and `StartPairing`.
- A pairing service without a store, and one whose rows could not be listed at start. Device names beyond the check that there is one, scopes and proof keys.
- PairingService.Service.StartPairing: what the codes and ids look like, and that the code alone finds the challenge, is in CompletePairing; ActiveChallenge and GetChallengeStatus only report what these leave.
- Floating-point rounding in the limiter: tokens and times are reals. An address with no bucket because too many are tracked gets a full one each time, as in the code; only the overall bound then holds.
- Cancelling the drain of stdout: a cancelled drain hands on a prefix of the frames.
- What a listing asks an agent for and how its chats are placed in repositories; a requester's own cancellation before it joins; the ticking of timers, which may fire at any time here.
- Starting and stopping processes, and the wait groups of the lister, which are the set of calls not done and the set of processes being stopped.
- The session lifecycle, HTTP handlers, catalog, installer, updater, CLI and SQL.
- Which stop reason counts as success: one branch each.
