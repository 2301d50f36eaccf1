# Verified model of the pi-tavern message and reload protocols

The repository lets several coding agents talk in one group chat.  A creator process keeps the chat; each
character process delivers what is new to its agent, lets it speak, and survives reloads.  This project models
the three state machines behind that and proves what they promise on every run.

**The durable log** (`Text`, `Messages`, `History`, `SessionStore`, `Creator`, `CreatorProofs`, `CreatorRuntime`,
`Publishing`, `Privacy`, `Membership`, `Availability`, `Heartbeat`).  The creator keeps public messages and whispers
in two streams with one counter, persists before it commits, recovers from failed writes, and rebuilds itself from
its session file.  Failures are injected at every write, append, reload and delete.

**Delivery** (`Preview`, `Heard`, `Delivery`, `GroupChatInput`, `DeliveryWorld`, `Coverage`, `NoSkip`, `Merging`,
`Crossing`, `CatchUp`, `ReadBeforeSpeak`, `Conservation`, `Scheduling`, `Triggers`, `Aborts`, `UnreadGate`,
`Reactions`, `PullWindow`).  A client hears of changes through notifications, pulls what follows its cursor, merges
it with live frames, and hands batches one after the other to pi, which may drop or reorder them.  The cursor moves
when pi reports a batch as read and the batch's interval proves there is no hole.  `DeliveryWorld` puts the
creator's log, one ordered channel, the client over any number of runtimes, pi's queue and the agent's reading into
one step system in which timers, failures, drops, settles, reloads, leaving and joining again, and batches pi still
holds from elsewhere happen in any order.

**The model-transition queue** (`ModelQueue`, `Handoff`, `Transparent`, `Divergence`, `Rounds`, `Profiles`,
`Baselines`, `Controller`).  A single-flight queue captures, switches and restores model and thinking level.  It can
be frozen at any await and rebuilt from a snapshot, again and again, while its one write is in flight.

Code that updates fields is a class here (`SessionStoreObject`, `CreatorRuntimeObject`, `MemberBookkeeping`,
`HeartbeatRegistry`, `CharacterHeartbeat`, `CharacterRuntime`, `GroupChatInput`, `ModelTransitionQueue`,
`TavernController`); each method is proved equal to a function on the abstract state, and the theorems are about all
runs of those functions.  An `await` splits a method in two.

## What the proofs found

- **A message can be skipped in three ways**, and `NoSkip.NothingSkipped` proves that without them none is.  Each has
  its exact condition on runs and a run that skips.
- **Skipped by a merge.**  A flush of a pull that is merged with a batch in the retry slot claims everything
  from the cursor to the higher of the two watermarks.  If two live flushes were queued between the pull's fetch and
  its flush and whispers arrived after the page, the first may be dropped by pi and the second refused; the merge then
  claims the first one's number without holding it.  `Merging.UnsafeMergeSkips` is such a run from the join to the
  skip, with every reply in the order of its request.  In the hole of a merge are the numbers above the pull's
  watermark and the cursor, up to the failed batch's own watermark, that are not above the failed batch's lower bound
  and not in it.  `Merging.RunSkipsIff` proves that a merge skips something exactly when a message still to be read is
  in its hole, and `Merging.MergeSafeIff` that an empty hole is the exact guard for a client, which cannot see the log.
- **Skipped by a batch of another chat.**  The confirmation that moves the cursor does not compare the batch's chat
  with its own (src/character/group-chat-input.ts:1039-1080), and leaving a chat neither empties pi's queue nor waits
  for the agent (src/controller/tavern-controller.ts:173-190).  A batch left behind therefore moves the cursor of the
  chat joined next whenever its interval touches that cursor, even beyond the end of that chat's log
  (`Crossing.RunForeignSkipsIff`, `Crossing.ForeignBatchSkips`).
- **Skipped by joining as another character.**  The cursor file belongs to the session, not to the character
  (src/commands.ts:254-261).  A session that joins the same chat again as another character goes on from a cursor that
  may be past whispers only that character could read (`Crossing.RunRejoinSkipsIff`, `Crossing.RejoinSkips`).
- **A reload can strand a pending item.**  The snapshot carries pending items and the debounce, but not a flush that
  was already queued; an item waiting for such a flush stays pending until something else causes one
  (`Scheduling.ReloadSchedulesIff`, `Scheduling.LateReloadStrands`).  Numbered messages are fetched again later; a
  board update or welcome message has to wait.
- **A reload can forget a fetch.**  The snapshot carries the busy mark and the idle window, but not a pull that is on
  its way; a message announced before, for which that pull was sent, is then fetched only when something else is
  announced (`Triggers.ReloadForgetsFetch`).  After a reload something fetches if and only if the mark was set or the
  window open (`Triggers.ReloadCausesIff`).
- **Resume can differ from live** when a first persist failed and its file could not be deleted.  A run that ends with
  a file but nothing persisted always contains such a failure (`CreatorProofs.LeftoverHistory`), and
  `CreatorProofs.LeftoverEqualsLiveIff` says exactly when the file still scans to the live state.
- **A late cleanup can remove a successor.**  A failed send removes the socket entry before the online entry, so a
  new connection of the same session can become ready in between (`Membership.LateCleanupRemovesSuccessor`).
- **The barrier applies a level that may already be in effect**, the uninterrupted path does not; the two agree
  exactly when that is a no-op (`Transparent.BarrierMatchesIffSteady`), which `Transparent.HandoffIsTransparent`
  assumes of the executor.  With a model getter that cannot be observed the barrier goes by the record and the
  uninterrupted path by the receipt (src/character/model-transition-queue.ts:460-467 against 548-559);
  `Transparent.UnobservedSwitchIff` and `Transparent.UnobservedRestoreIff` say exactly when they agree, and
  `Divergence.UnobservedPathsDiffer` is a run on which they do not, and `Divergence.UnsteadyPathsDiffer` one on which
  everything can be observed but the level does not settle.

## Assumptions

- The channel between creator and client is ordered and the creator answers requests one after the other: a reply
  reflects every message whose frame arrived before it, and the replies to a fetch and to a flush's state request
  arrive in the order of the requests.
- The join preset is the watermark of the ready response, and the cursor file holds it from the start; later writes
  of the file may fail.  The ready watermark is the number of public messages (src/creator/pipeline-assembly.ts:119),
  a lower bound of the latest number once whispers exist, and nothing more is assumed of it.
- A session that joins again as another character keeps its preset; what its agent knows of the log as that character
  comes with the event, and what pi still holds for the character before it may be read at any time, like a batch of
  another chat.
- pi either puts a whole batch into the agent's context and reports it, or never does.
- A queue's own step may come at any time after it has become possible.
- The segment between two awaits of the model write is one step, the return from `applyModelDimension` included.
  `applyModel` may lead to any model but does not change the thinking level.  `Rounds.RestoredAfterAllRounds` assumes
  that both getters work, that writes of the original model succeed, that the original level can be set on it, and
  that nobody changes settings by hand, as the design's own promise does.
- A reload snapshot is taken once per queue (src/controller/tavern-controller.ts:256-263), and tasks are submitted only
  while a controller is attached.

The table lists the main results first, in the order of delivery, model queue, log and membership; then, file by file,
the lemmas they rest on and the methods that tie the objects to the functions they are about.

## Model

| member | source | states |
|---|---|---|
| NoSkip.NothingSkipped | src/character/group-chat-input.ts:1039-1080 | In every reachable state of every run in which no merge, no batch of another chat and no change of character reaches over a message still to be read, every message by someone else above the join preset and at most the cursor, in memory or in the file, was read by the agent: whatever pi drops or reorders, however hand-overs and fetches fail, across reloads and rejoins. |
| Merging.RunSkipsIff | src/character/group-chat-input.ts:1236-1305 | The exact condition on runs: after any such run that comes to a merge, once pi has taken and read the merged batch something at most the cursor is unread if and only if a message still to be read is in the hole: above the pull's watermark and the cursor, at most the failed batch's watermark, not above its lower bound, and not in it. |
| Merging.UnsafeMergeSkips | src/character/group-chat-input.ts:1236-1305 | A run from the join in which a merge moves the cursor over a whisper to this client that its agent never read: while the creator is slow to answer, two flushes queue up between a pull's fetch and its flush; one live batch is dropped by pi and the next refused. |
| Merging.MergeSafeIff | src/character/group-chat-input.ts:1236-1305 | The guard a client can check: the merged batch is honest on every ground on which its parts are if and only if the hole is empty. |
| Crossing.RunForeignSkipsIff | src/character/group-chat-input.ts:1039-1080 | The exact condition for a batch that pi still held from another chat: after any run without a skip so far, once someone has written the next message, reading it has made the client skip something if and only if its interval touched the cursor and its watermark is above something unread or above the end of the log. |
| Crossing.ForeignBatchSkips | src/controller/tavern-controller.ts:173-190 | An input: a session leaves one chat with a batch in pi's queue and joins another; the batch moves the new chat's cursor past a whisper to this client that its agent never read. |
| Crossing.RunRejoinSkipsIff | src/commands.ts:254-261 | The exact condition for joining again: it skips something if and only if it is as another character and the session's cursor file is past a message by someone else that the agent does not know. |
| Crossing.RejoinSkips | src/commands.ts:254-261 | An input: the cursor passes a whisper between two others, of which the client is only told; the session then joins as its recipient and never reads it. |
| ReadBeforeSpeak.PublishedHasRead | src/character/character-runtime.ts:719-723 | Whenever the creator publishes a speak or whisper carrying the cursor its client had at some reachable moment, the author's agent had read by then every earlier public message by others and every whisper to it above the preset, up to the moment of publishing. |
| ReadBeforeSpeak.StaleNamesACause | src/creator/creator-pipelines/submit-message-pipeline.ts:111-132 | A rejection as stale happens if and only if a message that counts lies beyond the basis; own messages and whispers between others alone never cause one. |
| CatchUp.NothingSkippedUnlessRefused | src/character/group-chat-input.ts:1455-1487 | As long as pi refuses no batch and the session stays with one chat and one character, nothing is skipped on any run, whatever pi drops or reorders. |
| CatchUp.OneCycleCatchesUp | src/character/group-chat-input.ts:417-521 | An undisturbed pull, from its fetch until pi reports its batch read, leaves the cursor at the end of the log with nothing unread, also when all of it was the client's own. |
| Conservation.AlwaysConserved | src/character/group-chat-input.ts:1190-1292 | In every reachable state, until the client stops, the items taken in are as a multiset those pending, in a queued flush, in the running one, in the retry slot, handed to pi or dropped by the filter. |
| Scheduling.AlwaysScheduled | src/character/group-chat-input.ts:1190-1211 | On every run whose reloads come in time, pending items, and a failed batch that waits for its retry, always have a flush ahead: a debounce, or a queued or running flush. |
| Scheduling.LateReloadStrands | src/character/group-chat-input.ts:655-682 | The run that fails: a reload while a second message's flush waits behind the first one's leaves the message pending with no timer, flush or pull ahead. |
| Triggers.AlwaysTriggered | src/character/group-chat-input.ts:255-305 | While no fetch fails, a processed notification not proved to be own messages, or a whisper beyond a gap, is covered by a fetched page, or the idle window is armed, the busy mark set, a refetch requested, or a fetch sent after it is in flight; also across rejoins, and across reloads that the mark or the window survives. |
| Triggers.QuietMeansFetched | src/character/group-chat-input.ts:417-521 | A client with nothing armed, marked or in flight has fetched everything it was notified of. |
| Aborts.AbortsAreRareAndProven | src/character/group-chat-input.ts:608-649 | At most one abort between two settles, and a token that can fire was queued since the last one, backed by a number that was unread and someone else's. |
| Triggers.ReloadCausesIff | src/character/group-chat-input.ts:655-695 | The exact condition: after a reload something is going to fetch if and only if the busy mark was set or the idle window open. |
| Triggers.ReloadForgetsFetch | src/character/group-chat-input.ts:655-663 | The run that fails: a reload while the fetch for an announced message is on its way leaves nothing that will fetch it before another notification. |
| CatchUp.ReloadCatchesUp | src/character/group-chat-input.ts:686-690 | A reload with the busy mark set fetches at once, and undisturbed that leaves the cursor at the end of the log with nothing unread. |
| Aborts.ExternalAborts | src/character/group-chat-input.ts:263-294 | A notification that proves another's message during a run stops it: the next boundary aborts, the one after does not, and the settle fetches from the cursor. |
| UnreadGate.GateBlocksIff | src/character/character-runtime.ts:698-713 | In every reachable state a speak is blocked if and only if the newest notification shows another's unread message, or an own one while something is unheard of. |
| UnreadGate.GateIsExactIff | src/character/group-chat-input.ts:927-952 | In every reachable state the gate says exact if and only if nothing up to the watermark is unheard of, and counts the others' messages heard of. |
| UnreadGate.OwnEchoesLeaveGateOpen | src/character/character-runtime.ts:698-713 | In every reachable state own public messages alone, as many as a notification shows, never block the next speak. |
| UnreadGate.GateCountsSoundly | src/character/group-chat-input.ts:902-954 | In every reachable state the count is at most the number of unread messages by others up to the known watermark, and equal to it whenever exact is returned. |
| UnreadGate.GateBlocksWithCause | src/character/character-runtime.ts:698-713 | In every reachable state a blocked speak has its cause: another's unread public message, or a preview cut short that shows an own message. |
| Transparent.HandoffIsTransparent | src/character/model-transition-queue.ts:219-306 | With working getters, every run with any number of freeze, snapshot and rehydrate handoffs at any await, also before the previous barrier is over, has the same writes in the same order, the same model, level, slots and remaining work as some run of one uninterrupted queue with the same external events. |
| Transparent.BarrierMatchesIffSteady | src/character/model-transition-queue.ts:419-425 | For a restore in flight the barrier and the uninterrupted path agree if and only if setting the level already in effect is a no-op where it matters. |
| Transparent.UnobservedSwitchIff | src/character/model-transition-queue.ts:458-467 | When the model cannot be observed, barrier and uninterrupted path leave the same settings after a switch if and only if the record and the receipt agree on the target, or there is nothing to set. |
| Transparent.UnobservedRestoreIff | src/character/model-transition-queue.ts:413-425 | The same for a restore, whose uninterrupted path asks receipt, model record and level record. |
| Divergence.UnobservedPathsDiffer | src/character/model-transition-queue.ts:548-559 | An input, from the start: a round whose switch of model and level is accepted while the model cannot be observed; the queue that made the write sets the level, its successor after a reload does not. |
| Divergence.UnsteadyPathsDiffer | src/character/model-transition-queue.ts:419-425 | An input, from the start: a restore whose level is in effect already, with an executor that answers every setting with another level; the queue that made the write leaves it alone, its successor after a reload sets it. |
| Rounds.RestoredAfterAllRounds | src/character/model-transition-queue.ts:330-429 | For any number of join and leave rounds under any epochs, with reloads anywhere and leaves at any time, once the queue has drained after a leave model and level equal those before the first round, and no baseline slot ever holds anything else. |
| Rounds.RestoreIsReached | src/character/model-transition-queue.ts:265-306 | From any such run that ends outside a round the queue reaches that state by its own steps and the settling of its writes, in finitely many. |
| Profiles.ProfileTakesEffect | src/character/model-transition-queue.ts:352-378 | With working getters, a model that resolves and a level that can be set: after any run with work of earlier rounds still under way and through any reloads, once a round's switch has been carried out the model and the level in effect are those its target names, whether it names one, the other or both, and whether or not the model was in use. |
| Profiles.ProfileIsReached | src/character/model-transition-queue.ts:265-306 | And it is carried out, by the queue's own steps and the settling of its writes. |
| Handoff.WritesNeverOverlap | src/character/model-transition-queue.ts:447-477 | Whenever a step starts a model write every earlier one has settled. |
| Handoff.RemainderAtMostOnce | src/character/model-transition-queue.ts:514-541 | However often a write is handed on, its remaining part is carried out at most once. |
| Handoff.PendingTasksAreRun | src/character/model-transition-queue.ts:265-291 | An unfrozen queue with pending tasks is never at rest. |
| CreatorProofs.ResumeEqualsLive | src/creator/creator-factory.ts:192-282 | After any run of persona messages, speaks, whispers, renames, limit changes and resumes with failures injected, in which something was persisted, scanning the file rebuilds exactly the live state. |
| CreatorProofs.ResumeEqualsLiveAnyDefault | src/creator/creator-factory.ts:197-208 | The same whatever default limit is configured at the resume, as long as no leftover of a failed first persist was ever resumed. |
| CreatorProofs.LeftoverEqualsLiveIff | src/creator/creator-factory.ts:192-282 | After any run that leaves a file though nothing was persisted, resume equals live if and only if the file holds the header alone, the chat has no name and its limit is the configured one. |
| CreatorProofs.LeftoverHistory | src/data/session-store.ts:289-304 | Such a run contains a first persist that failed and whose rollback could not delete its file, and the store is still fatal unless a resume followed. |
| CreatorProofs.GaplessAlways | src/creator/creator-pipelines/whisper-message-pipeline.ts:188-259 | In every reachable state the two streams are disjoint, increasing and together exactly 1..nextSequence. |
| CreatorProofs.RoundQuota | src/creator/creator-pipelines/submit-message-pipeline.ts:134-197 | In every reachable state, across resumes, usage is at most the round's maximum and equals the speaks and whispers logged since the last persona message. |
| CreatorProofs.PublishedIff | src/creator/creator-pipelines/submit-message-pipeline.ts:111-187 | Published if and only if nothing that counts came after the basis, the store is writable, the logged usage is below the maximum and the append succeeds; stale if and only if something counts; the log grows by exactly the message. |
| Publishing.SpeakWrites | src/creator/creator-pipelines/submit-message-pipeline.ts:88-215 | A speak is published under the online entry of its connection's session, to everyone; a connection that may not publish changes nothing. |
| Publishing.WhisperWrites | src/creator/creator-pipelines/whisper-message-pipeline.ts:92-259 | A whisper is published to the online character it names, under that one's name; the sender is not its recipient and the recipient's socket is open. |
| Publishing.PersonaWrites | src/creator/creator-pipelines/submit-message-pipeline.ts:231-318 | The persona's message carries the text, the next number and a fresh round of the current limit; that round opens, every hand is lowered and the file ends with its entry; or a named refusal changes nothing. |
| CreatorProofs.AllOrFatalAlways | src/data/session-store.ts:158-221 | After every operation either memory equals the file or the store is fatal. |
| Privacy.FetchHidesTexts | src/creator/creator-pipelines/query-pipeline.ts:194-222 | Two logs that differ only in texts and rounds of whispers the requester may not read give the same page to every fetch. |
| Privacy.HistoryHidesTexts | src/creator/creator-pipelines/query-pipeline.ts:156-192 | The same for every page of history, its cursor and its flag. |
| Privacy.NoticesHideText | src/creator/creator-pipelines/whisper-message-pipeline.ts:279-319 | Every notice that does not go to the recipient's session is the same whatever the whisper says, and tells its event id, number, time, sender and recipient. |
| Messages.GaplessIffOneLog | src/creator/creator-pipelines/message-stream.ts:10-47 | Two streams use 1..n exactly once between them if and only if their merge is the log in order and splits back into the same two streams. |
| Messages.FetchIsExact | src/creator/creator-pipelines/query-pipeline.ts:194-222 | A fetch since k returns k+1..n, each once, in order, projected for the requester, with n as watermark, however the log is split over the streams. |
| History.PageOlderHistory | src/character/group-chat-input.ts:556-584 | Following cursors from the newest page ends, and the pages, oldest last, tile the log of the first request, though the log may grow before every later request. |
| Preview.SelfOnlyIff | src/character/group-chat-input.ts:961-986 | "complete-self-only" is answered if and only if (cursor, latest] is at most three messages, all public and all own. |
| Preview.ExternalIsSound | src/character/group-chat-input.ts:961-986 | "external" implies that a message by someone else in (cursor, latest] is unread (pigeonhole). |
| Preview.UnreadCountIsSound | src/character/group-chat-input.ts:902-954 | The unread count never exceeds the true number of unread messages by others and equals it whenever exact is returned. |
| Membership.OneHolderPerCharacter | src/creator/member-bookkeeping.ts:39-102 | Over every interleaving of join, claim, ready, ready timeout, leave, close and send failure each character is held by at most one session, reserved or online, and each reservation matches exactly one connection. |
| Availability.ClosedHoldsNothing | src/creator/creator-runtime.ts:270-273 | In every reachable state whatever a connection holds is free again once it has closed. |
| Membership.ReadyKeepsRosterIff | src/creator/creator-pipelines/ready-pipeline.ts:66-92 | An accepted ready keeps the online table matched with connections if and only if no other connection of that session is still in it. |
| Heartbeat.StaleIffSilent | src/creator/heartbeat-registry.ts:49-107 | A member is declared stale at a tick if and only if the tick is not a forgiving one and no registration, pong or forgiving tick fell within the last timeout. |
| Heartbeat.DetectedInTime | src/creator/heartbeat-registry.ts:84-107 | A silent member is declared stale within the timeout plus two intervals of its last sign of life while ticks come at most two intervals apart. |
| Messages.MergeMessageStreams | src/creator/creator-pipelines/message-stream.ts:10-47 | The two-index loop returns exactly the recursive merge the log theorems are about, with its shortcuts for an empty stream. |
| Messages.MergeSplits | src/creator/creator-pipelines/message-stream.ts:10-47 | The public and the private messages of the merge are the two inputs, in their own order. |
| Messages.OneLogAppend | src/creator/creator-pipelines/submit-message-pipeline.ts:195-215 | A message carrying the next number, public or whispered, keeps the streams one gapless log and lands at the end of the merge. |
| Messages.ComputeLatestOtherSequence | src/creator/creator-pipelines/message-stream.ts:60-80 | The backward scan finds the newest message that counts for the requester, and 0 when there is none. |
| Messages.StaleIff | src/creator/creator-pipelines/message-stream.ts:60-80 | A basis is behind the computed number if and only if a public message by someone else or a whisper to the requester came after it. |
| Messages.ProjectionHidesWhispers | src/creator/creator-pipelines/query-pipeline.ts:82-129 | A requester gets the text of a message if and only if it is public or the requester is one of its two participants; the number always survives. |
| History.PageIsSlice | src/creator/creator-pipelines/query-pipeline.ts:156-192 | A history page is the ten messages before its boundary, and its cursor and has-more flag say exactly whether older ones exist; an undecodable cursor gives the newest page. |
| History.OlderPageTiles | src/creator/creator-pipelines/query-pipeline.ts:171-191 | One more page prolongs what is tiled already, whatever was appended since. |
| Creator.NameRoundTrip | src/data/group-chat-state.ts:54-62 | A normalised name survives being written to the file and read back. |
| CreatorRuntime.CreatorRuntimeObject.RunPublish | src/creator/creator-pipelines/submit-message-pipeline.ts:111-215 | Staleness, writability, quota, persistence, commit, in this order, on the object's fields; equal to the step the run theorems quantify over. |
| CreatorRuntime.CreatorRuntimeObject.RunSpeak | src/creator/creator-pipelines/submit-message-pipeline.ts:88-228 | Membership, size and round checks before the shared publishing stages, with every refusal. |
| CreatorRuntime.CreatorRuntimeObject.RunWhisper | src/creator/creator-pipelines/whisper-message-pipeline.ts:92-277 | The same for whispers, with the self and offline refusals, sharing counter and quota with speak; on success the notices sent. |
| CreatorRuntime.CreatorRuntimeObject.Notify | src/creator/creator-pipelines/whisper-message-pipeline.ts:279-319 | The loop over online members sends the full frame to the recipient and placeholders to the other bystanders with an open socket. |
| CreatorRuntime.WhisperReachesRecipientOnly | src/creator/creator-pipelines/whisper-message-pipeline.ts:279-319 | No notice of a whisper goes to its sender and its text goes to nobody but the recipient. |
| CreatorRuntime.CreatorRuntimeObject.RunUserPersona | src/creator/creator-pipelines/submit-message-pipeline.ts:231-318 | First persist or append, then a new round with usage zero and all hands lowered; nothing changes on failure but what recovery reloads. |
| CreatorRuntime.CreatorRuntimeObject.SetGroupName | src/creator/runtime-facades.ts:32-75 | Renaming before and after the first persist, with descriptor and append failures. |
| CreatorRuntime.CreatorRuntimeObject.SetMaxMessages | src/creator/runtime-facades.ts:77-103 | Changing the limit: an invalid one is refused before anything is written. |
| CreatorRuntime.ScanEntries | src/creator/creator-factory.ts:192-272 | The loop over the session entries rebuilds name, limit, round, counter, both streams and count exactly as the fold the resume theorems use. |
| CreatorRuntime.CountPersistedEntries | src/data/cursor-store.ts:30-54 | Counts exactly the entries of the four owned kinds. |
| CreatorProofs.StepKeeps | src/creator/creator-pipelines/submit-message-pipeline.ts:155-215 | Every operation, with any injected failure, keeps: one gapless log, the quota, memory equal to file or fatal, and a file whose scan is the live state. |
| CreatorProofs.LeftoverFileDiffers | src/data/session-store.ts:289-304 | An instance that differs: the message append and the delete fail on a fresh chat. |
| CreatorProofs.RejectionChangesNothing | src/creator/creator-pipelines/whisper-message-pipeline.ts:151-226 | A speak or whisper that is rejected or fails leaves log, counter, usage and file as they were. |
| CreatorProofs.FatalIsFinal | src/data/session-store.ts:158-162 | A fatal store refuses every later write: file, log, round and counters stay. |
| SessionStore.AppendAllOrFatal | src/data/session-store.ts:187-221 | An append either adds exactly its entry to file and memory, or leaves the file alone and reloads, or is fatal, and exactly when the reload fails. |
| SessionStore.FirstPersistAllOrFatal | src/data/session-store.ts:229-313 | With a failure at any step the first persist writes exactly its entries, or leaves no file and an empty manager, or is fatal exactly when the delete fails. |
| SessionStore.RetrySucceeds | src/data/session-store.ts:289-313 | After a failed first persist that is not fatal a retry writes what a first try would have written. |
| SessionStore.FailedFirstPersistLeavesNoMessage | src/data/session-store.ts:229-313 | A failed first persist never leaves a message in the file, not even when the delete fails too. |
| SessionStore.SessionStoreObject.PersistFirstMessage | src/data/session-store.ts:229-284 | The five marked steps with rollback, on the store's fields. |
| SessionStore.SessionStoreObject.RollbackFirstPersist | src/data/session-store.ts:289-313 | What is undone depends on the marks as they were before the reset. |
| SessionStore.SessionStoreObject.Append | src/data/session-store.ts:164-179 | The manager changes its memory before the file; a failed write leaves the file as it was. |
| SessionStore.SessionStoreObject.RecoverFromFailedAppend | src/data/session-store.ts:187-203 | Reload or fatal. |
| Preview.BroadcastIsTruthful | src/creator/broadcast-hub.ts:129-166 | Every notification of a gapless log shows genuine public messages, the newest among them, and every public message it has room for. |
| Preview.SelfOnlyIsSound | src/character/group-chat-input.ts:961-986 | "complete-self-only" implies every message in (cursor, latest] is own and public. |
| Preview.BlockNeedsCause | src/character/group-chat-input.ts:918-953 | With something known beyond the cursor, speaking is blocked exactly when the preview shows another's unread message or is cut short and shows an unread own one; in the first case an unread public message by someone else exists. |
| Preview.NothingKnownNothingBlocked | src/character/group-chat-input.ts:904-922 | With nothing known beyond the cursor, and with placeholders alone, speaking is never blocked. |
| Coverage.FreshKeeps | src/character/group-chat-input.ts:1260-1285 | The filter before delivery keeps every number above the cursor once, adds nothing, and lets older numbers through only inside the pull window. |
| Coverage.ContiguousCovers | src/character/group-chat-input.ts:1010-1026 | A declared lower bound means the batch's own frames fill the whole interval up to their highest number. |
| Coverage.GapMeansNoCoverage | src/character/group-chat-input.ts:1010-1026 | A batch with a gap declares nothing. |
| Coverage.PageIsComplete | src/creator/creator-pipelines/query-pipeline.ts:208-221 | A page holds every message by others above its starting point, none of the client's own, and nothing beyond its watermark. |
| GroupChatInput.FilterDelivered | src/character/group-chat-input.ts:1260-1285 | The loop with its set of seen numbers equals the recursive filter. |
| GroupChatInput.ComputeCoverage | src/character/group-chat-input.ts:1010-1026 | The min-max-set loop equals the specification of the coverage bound. |
| GroupChatInput.ComputeWatermark | src/character/group-chat-input.ts:993-1003 | The highest injected number, none when nothing was injected. |
| GroupChatInput.ScanPage | src/character/group-chat-input.ts:431-485 | The page loop yields the items to inject, the numbers read before, and whether anything unread can be delivered. |
| GroupChatInput.CharacterRuntime.SaveCursor | src/character/character-runtime.ts:664-676 | Memory always moves; the file only when the write succeeds. |
| GroupChatInput.GroupChatInput.Pull | src/character/group-chat-input.ts:417-427 | Single flight: a second pull only leaves a mark. |
| GroupChatInput.GroupChatInput.OnPage | src/character/group-chat-input.ts:428-521 | A page becomes one flush with everything pending before it, or moves the cursor, or neither; a mark set meanwhile starts the next turn. |
| GroupChatInput.GroupChatInput.OnDelivered | src/character/group-chat-input.ts:528-550 | After its flush the pull clears its window and goes on or rests. |
| GroupChatInput.GroupChatInput.PrepareFlush | src/character/group-chat-input.ts:1230-1315 | What a flush takes up, what survives the filter, the interval it claims and the watermark it carries, with and without a batch in the retry slot. |
| GroupChatInput.GroupChatInput.BeginFlush | src/character/group-chat-input.ts:1213-1323 | A queued flush up to its await. |
| GroupChatInput.GroupChatInput.EndFlush | src/character/group-chat-input.ts:1329-1487 | The flush after its await: handed over, kept for retry, or dropped by a stop; leftovers are scheduled. |
| GroupChatInput.GroupChatInput.ConfirmConsumed | src/character/group-chat-input.ts:1039-1080 | The cursor moves exactly when the batch's interval reaches down to it and beyond it. |
| GroupChatInput.GroupChatInput.OnGroupChatUpdate | src/character/group-chat-input.ts:255-305 | Notifications: ignored, marked busy with delivery window and token, or idle window armed. |
| GroupChatInput.GroupChatInput.OnWhisperMessage | src/character/group-chat-input.ts:317-355 | Whispers: repeated, own, beyond a gap, or taken in. |
| GroupChatInput.GroupChatInput.OnWhisperPlaceholder | src/character/group-chat-input.ts:896-900 | Placeholders only raise a watermark. |
| GroupChatInput.GroupChatInput.OnEnvironmentItem | src/character/group-chat-input.ts:356-362 | Board updates by others, welcome messages and live public messages wait for the debounce; own echoes do not. |
| GroupChatInput.GroupChatInput.OnIdleWindow | src/character/group-chat-input.ts:715-747 | The idle window pulls, or hands over to the busy path with a token if it was earned. |
| GroupChatInput.GroupChatInput.OnDeliveryWindow | src/character/group-chat-input.ts:765-786 | The delivery window pulls only if the mark is still set. |
| GroupChatInput.GroupChatInput.OnDebounce | src/character/group-chat-input.ts:1148-1160 | The debounce queues a flush of what is pending. |
| GroupChatInput.GroupChatInput.Settled | src/character/group-chat-input.ts:175-194 | A settle drops tokens and the delivery window and pulls if something waited. |
| GroupChatInput.GroupChatInput.OnAgentSettled | src/character/character-runtime.ts:430-439 | A settle that comes after the watchdog's does nothing to the input. |
| GroupChatInput.GroupChatInput.OnRunWedged | src/character/character-runtime.ts:397-417 | The watchdog settles a run in its place. |
| GroupChatInput.GroupChatInput.ConsumeAbortControlToken | src/character/group-chat-input.ts:608-626 | One abort when, and only when, a token is queued, none was asked for, something waits and the run is active. |
| GroupChatInput.GroupChatInput.QueueAbortControlToken | src/character/group-chat-input.ts:628-649 | At most one token a run; a refused one is forgotten. |
| GroupChatInput.GroupChatInput.Stop | src/character/group-chat-input.ts:586-602 | Stopping clears timers, pending items and tokens. |
| GroupChatInput.GroupChatInput.RestoreFromReload | src/character/group-chat-input.ts:655-695 | What the instance of the next runtime starts from: pending items, timers, the busy mark, and the cursor file. |
| GroupChatInput.GroupChatInput.MarkPending | src/character/group-chat-input.ts:1175-1180 | The mark a blocked or stale speak leaves. |
| GroupChatInput.GroupChatInput.ArmIdleWindowTimer | src/character/group-chat-input.ts:702-713 | A fixed window: a second notification adds its evidence but not its time. |
| GroupChatInput.GroupChatInput.AfterFlush | src/character/group-chat-input.ts:1203-1210 | What came in during a flush is scheduled again, unless a failed batch goes first. |
| GroupChatInput.GroupChatInput.OnFetchFailed | src/character/group-chat-input.ts:515-521 | A failed fetch moves nothing and ends the pull. |
| NoSkip.StepKeeps | src/character/group-chat-input.ts:1010-1080 | The inductive step: pending, queued, running, failed and handed-over batches all keep claiming only what is true. |
| NoSkip.ReplyIsComplete | src/character/group-chat-input.ts:428-513 | A reply, with everything pending before it, holds each unread message up to its watermark; a reply without anything unread proves its watermark read. |
| NoSkip.MergedIsMergeable | src/character/group-chat-input.ts:1236-1246 | A merge of a pull with the failed batch before it claims only what is true if no message still to be read is in its hole. |
| NoSkip.RetriedIsMergeable | src/character/group-chat-input.ts:1294-1315 | A failed batch that goes out again still claims only what is true, though read items were filtered out. |
| Merging.AlwaysOnePull | src/character/group-chat-input.ts:417-550 | In every reachable state a pull's flush is queued or running exactly while that one pull is handing over. |
| Scheduling.ReloadSchedulesIff | src/character/group-chat-input.ts:655-682 | A reload leaves pending items to a flush if and only if the debounce was still due. |
| Conservation.FilterSplits | src/character/group-chat-input.ts:1260-1285 | The filter only sorts items into kept and dropped. |
| Conservation.DroppedWithReason | src/character/group-chat-input.ts:1260-1285 | What it drops has a number, and that number was read before or is kept once in the same batch; board and welcome items are never dropped. |
| Conservation.RetryGoesFirst | src/character/group-chat-input.ts:1236-1246 | What is left of a failed batch heads the next batch that goes out. |
| Conservation.RetryStays | src/character/group-chat-input.ts:1455-1487 | Nothing but the next flush or a reload empties the retry slot; a second failure never overwrites it. |
| Aborts.OwnEchoesQueueNothing | src/character/group-chat-input.ts:263-296 | A notification about own messages only, complete in its preview or not, queues no token and makes no idle window eligible. |
| Aborts.SettleEndsTokens | src/character/group-chat-input.ts:175-194 | No token from before a settle can fire after it. |
| ModelQueue.IndexOfSlash | src/character/model-transition-queue.ts:92-98 | The first slash, or the length. |
| ModelQueue.ModelTransitionQueue.SubmitTask | src/character/model-transition-queue.ts:165-193 | Submission marks or clears the active round, appends, and starts an idle queue. |
| ModelQueue.ModelTransitionQueue.Turn | src/character/model-transition-queue.ts:293-328 | One turn of the loop up to its next await, for all three kinds of task. |
| ModelQueue.ModelTransitionQueue.Finish | src/character/model-transition-queue.ts:270-291 | The end of a run starts the next when a task slipped in. |
| ModelQueue.ModelTransitionQueue.DoCapture | src/character/model-transition-queue.ts:330-349 | A baseline slot by mask, records corrected by the getters first. |
| ModelQueue.ModelTransitionQueue.DoSwitch | src/character/model-transition-queue.ts:352-378 | Round check, reference check, short cut, resolve, write. |
| ModelQueue.ModelTransitionQueue.DoRestore | src/character/model-transition-queue.ts:381-412 | Restore up to its write, with every way a slot is given up. |
| ModelQueue.ModelTransitionQueue.FinishRestore | src/character/model-transition-queue.ts:413-428 | The thinking dimension of a restore, only on the baseline model. |
| ModelQueue.ModelTransitionQueue.OnWriteSettled | src/character/model-transition-queue.ts:447-477 | After its own write: frozen queues stop, others decide by the getter, the receipt counting only when nothing can be observed. |
| ModelQueue.ModelTransitionQueue.OnBarrierSettled | src/character/model-transition-queue.ts:514-567 | After an inherited write: the remaining level on the target only, a restored slot dropped, and nothing at all when frozen. |
| ModelQueue.ModelTransitionQueue.Rehydrate | src/character/model-transition-queue.ts:243-263 | The successor rebuilt from the snapshot, sharing the slot table. |
| ModelQueue.ModelTransitionQueue.RefreshModelRecord | src/character/model-transition-queue.ts:570-580 | The getter's answer, if any, becomes the record. |
| ModelQueue.ModelTransitionQueue.ApplyThinkingDimension | src/character/model-transition-queue.ts:490-497 | The level is applied as far as the executor takes it, then the record follows the getter. |
| ModelQueue.ModelTransitionQueue.BeginWrite | src/character/model-transition-queue.ts:447-453 | The write in flight is registered with its task and the level still to be applied. |
| Handoff.FrozenIsInert | src/character/model-transition-queue.ts:524-529 | A frozen queue that is still woken by its write changes no slot, setting or write. |
| Handoff.AlwaysSafe | src/character/model-transition-queue.ts:219-306 | In every reachable state over any number of handoffs: only the last write can be unsettled and the pending queue holds it; frozen queues stay frozen; unfinished work belongs to one queue. |
| Handoff.LeftoverOnlyOnTarget | src/character/model-transition-queue.ts:548-567 | A barrier changes the thinking level only by the remaining level, and only when the recorded model is the write's target. |
| Transparent.BarrierMatchesSwitch | src/character/model-transition-queue.ts:548-567 | For a switch in flight they always agree. |
| Controller.PlanModelProfile | src/character/model-profile.ts:21-38 | Targets exist exactly in the dimensions the mask turns on; absent and invalid fields never reach the queue. |
| Controller.TavernController.ClaimCharacter | src/controller/tavern-controller.ts:293-315 | Entering submits capture and switch of a new epoch, or nothing; the submissions stay whole rounds. |
| Controller.TavernController.Leave | src/controller/tavern-controller.ts:318-325 | Leaving by command or lost connection submits the restore of the open round and nothing else. |
| Controller.TavernController.Adopt | src/controller/tavern-controller.ts:337-351 | The next controller goes on with the same round and an epoch no smaller than any known one. |
| Controller.TavernController.StartJoining | src/controller/tavern-controller.ts:101-127 | Joining is refused unless idle. |
| Controller.Newest | src/controller/tavern-controller.ts:349 | The largest of zero and the known epochs. |
| Membership.AvailableIff | src/creator/member-bookkeeping.ts:95-102 | A character is offered if and only if no session holds it. |
| Membership.StepKeeps | src/creator/member-bookkeeping.ts:58-87 | Each event keeps the reservation and holder invariant. |
| Membership.OthersKeepRoster | src/creator/member-bookkeeping.ts:58-87 | Every other event keeps the online table matched. |
| Membership.LateCleanupRemovesSuccessor | src/creator/creator-runtime.ts:577-587 | After a failed send a new connection of the same session can become ready before the queued cleanup, which then removes the successor's entry. |
| Membership.TwoConnectionsOneSession | src/creator/creator-pipelines/join-pipeline.ts:42-52 | The state the previous row starts from is reachable: two connections join under one session, reserve two characters, the first becomes ready, and after its failed send the ready of the second is accepted. |
| Membership.MemberBookkeeping.GetAvailableCharacters | src/creator/member-bookkeeping.ts:89-102 | Exactly the characters nobody holds. |
| Membership.MemberBookkeeping.RunJoin | src/creator/creator-pipelines/join-pipeline.ts:42-52 | A session is bound or the join refused with nothing changed. |
| Membership.MemberBookkeeping.RunClaim | src/creator/creator-pipelines/claim-pipeline.ts:45-58 | A reservation is made only for a character nobody holds. |
| Membership.MemberBookkeeping.RunReady | src/creator/creator-pipelines/ready-pipeline.ts:66-92 | A valid reservation becomes an online entry. |
| Membership.MemberBookkeeping.Release | src/creator/member-bookkeeping.ts:58-65 | The reservation goes only if it is this connection's. |
| Membership.MemberBookkeeping.RemoveOnlineCharacter | src/creator/member-bookkeeping.ts:67-87 | An online member leaves socket and online tables. |
| Membership.MemberBookkeeping.OnClosed | src/creator/creator-runtime.ts:270-273 | A closed connection gives up its reservation and its online entry. |
| Membership.MemberBookkeeping.OnReadyTimeout | src/creator/member-bookkeeping.ts:39-49 | The timeout releases a reservation that never became ready. |
| Membership.MemberBookkeeping.HandleSendFailure | src/creator/creator-runtime.ts:577-587 | A failed send removes the socket at once and the online entry later. |
| Heartbeat.HeartbeatRegistry.OnTick | src/creator/heartbeat-registry.ts:84-107 | The tick loop over the members: who is declared stale, who is pinged, whose baseline is reset. |
| Heartbeat.HeartbeatRegistry.RegisterSession | src/creator/heartbeat-registry.ts:49-52 | A member starts with a fresh sign of life. |
| Heartbeat.HeartbeatRegistry.RecordPong | src/creator/heartbeat-registry.ts:54-59 | A pong counts only for a registered member. |
| Heartbeat.HeartbeatRegistry.RemoveSession | src/creator/heartbeat-registry.ts:61-63 | A removed member is no longer watched. |
| Heartbeat.CharacterHeartbeat.OnTick | src/character/character-runtime.ts:1366-1393 | The client's own check of the creator follows the same rule as the registry's for one peer. |
| Messages.CountsIff | src/creator/creator-pipelines/message-stream.ts:60-80 | What makes a basis stale for someone is exactly what that one may read and did not write. |
| Privacy.NoticesEachOnce | src/creator/creator-pipelines/whisper-message-pipeline.ts:279-319 | The recipient gets one notice, the author none, everyone else connected one for its entry in the online table. |
| Publishing.PublishWrites | src/creator/creator-pipelines/submit-message-pipeline.ts:151-215 | When published, the message has the author's id and name, the recipient and text given, the stamp's id and time, the next number and the round after the charge; the file has grown by an entry that tells each of these, and the author's hand alone is lowered. |
| Publishing.PublishRefuses | src/creator/creator-pipelines/submit-message-pipeline.ts:111-149 | Otherwise: what stale reports as missing, the raised hand of a spent round, a broken store, a failed append; and nothing live or on file changes. |
| Publishing.SpeakPublishesIff | src/creator/creator-pipelines/submit-message-pipeline.ts:111-187 | For a member with an open round and a text of at most 64 KiB: published if and only if nothing that counts for the author came after the basis, the store can write, the round has room and the append succeeds. |
| Publishing.VetIff | src/creator/creator-pipelines/submit-message-pipeline.ts:88-109 | When a request is refused as too large, for want of a round, or of membership. |
| Publishing.WhisperRefuses | src/creator/creator-pipelines/whisper-message-pipeline.ts:116-149 | It is refused as sent to oneself or as unreachable if and only if it is. |
| Publishing.SetNameWrites | src/creator/runtime-facades.ts:32-75 | A rename changes the name alone, and only if it could be written, or described before the first persist. |
| Publishing.SetLimitWrites | src/creator/runtime-facades.ts:77-103 | A new limit changes the limit alone, and only if it is valid and could be written. |
| Publishing.NameOfOneLine | src/data/group-chat-state.ts:54-62 | A name in one line is what is left without white space at its ends, and no name if nothing is. |
| Publishing.NameOfManyLines | src/data/group-chat-state.ts:54-62 | In a name a run of line breaks is as good as one space. |
| Publishing.Utf8Counts | src/creator/creator-pipelines/submit-message-pipeline.ts:95-98 | The size that is limited is the number of bytes in UTF-8. |
| SessionStore.FirstFileIs | src/data/session-store.ts:229-284 | The file of a successful first persist: header, name if there is one, limit and message, each entry under its own stamp. |
| SessionStore.FailedAppendNeedsRecovery | src/data/session-store.ts:164-203 | After a failed append memory is one entry ahead of the file, which is why it must be reloaded. |
| SessionStore.FailedDeleteLeavesAll | src/data/session-store.ts:289-304 | When the rollback cannot delete, memory and file stay as the failing step left them. |
| CreatorProofs.ScanPassesOver | src/creator/creator-factory.ts:192-272 | Entries of another kind are passed over by the resume scan; damaged ones and limits out of range are only counted. |
| Preview.BroadcastShowsThree | src/creator/broadcast-hub.ts:129-166 | A notification names the newest public message and shows the last three. |
| Heard.ExactIff | src/character/group-chat-input.ts:927-932 | The count is called exact if and only if the client has heard of every number up to the watermark, from the preview or as the newest placeholder. |
| Heard.CountIs | src/character/group-chat-input.ts:933-952 | The count is the number of others' unread messages of which the client has heard. |
| Heard.BlockIff | src/character/group-chat-input.ts:933-953 | Blocked if and only if the preview shows an unread message by someone else, or an unread own one while of some number up to the watermark nothing was heard. |
| Heard.OwnEchoesLeaveOpen | src/character/group-chat-input.ts:927-953 | When everything unread is the client's own, public and fits the preview, the answer is an exact zero and no block. |
| Heard.NothingBeyondIff | src/character/group-chat-input.ts:902-926 | No answer before the first notification and placeholder, an exact zero when nothing is beyond the cursor. |
| Heard.CompleteIff | src/character/group-chat-input.ts:961-986 | A notification is complete and self-only if and only if it shows every number up to its watermark and all of them are own. |
| Heard.IncompleteIff | src/character/group-chat-input.ts:961-977 | It is incomplete with self if and only if it shows an own one and not every number. |
| Heard.OrderDoesNotMatter | src/character/group-chat-input.ts:965-967 | The answer does not depend on the order in which the preview lists its messages. |
| Coverage.CoverageIff | src/character/group-chat-input.ts:1010-1026 | A live batch declares an interval if and only if its own frames leave no number out between two that are there. |
| Coverage.GaplessDeclares | src/character/group-chat-input.ts:993-1026 | Frames k+1..n, in any order, declare exactly (k, n]. |
| Coverage.FreshOnce | src/character/group-chat-input.ts:1260-1285 | No number goes out twice in one batch. |
| Coverage.InjectedIs | src/character/group-chat-input.ts:1010-1026 | What counts as injected are the frames with text. |
| CatchUp.LiveBatchMovesCursor | src/character/group-chat-input.ts:1010-1080 | Live frames without a gap, however many, move the cursor to the last of them without any pull. |
| CatchUp.PullBringsContext | src/character/group-chat-input.ts:436-485 | A pull's batch holds exactly the numbers of its page, the context read before included. |
| CatchUp.RejoinCatchesUp | src/character/character-runtime.ts:358-364 | Joining again fetches at once, with the same end. |
| PullWindow.NothingReadAgain | src/character/group-chat-input.ts:528-550 | In every reachable state a flush outside a pull's hand-over delivers nothing that was read already. |
| Triggers.ReloadFetches | src/character/group-chat-input.ts:686-690 | The busy mark becomes a fetch from the cursor file, with nothing else on its way. |
| Triggers.ReloadKeepsWindow | src/character/group-chat-input.ts:691-694 | Without the mark an open idle window stays open, as eligible as it was. |
| Reactions.UpdateIsKnown | src/character/group-chat-input.ts:255-264 | Whatever it leads to, the newest notification is the one the client goes by. |
| Reactions.OwnUpdateIsQuiet | src/character/group-chat-input.ts:265-273 | One with nothing beyond the cursor or only own messages changes no mark and no window. |
| Reactions.UpdateDuringRun | src/character/group-chat-input.ts:275-294 | Any other during a run marks the run, opens the delivery window, and queues a token exactly if it proves another's message, pi takes it and none was queued or spent. |
| Reactions.UpdateOutsideRun | src/character/group-chat-input.ts:295-303 | Outside a run it opens the idle window, which remembers whether any proved another's message. |
| Reactions.PlaceholderRaises | src/character/group-chat-input.ts:306-312 | A placeholder raises the watermark of what is known and nothing else. |
| Reactions.RepeatedWhisper | src/character/group-chat-input.ts:317-331 | A whisper that was read or taken in before changes nothing. |
| Reactions.OwnWhisper | src/character/group-chat-input.ts:332-339 | An own whisper is noted, so that the next one is not taken for a gap, and not delivered. |
| Reactions.NextWhisper | src/character/group-chat-input.ts:340-355 | The next whisper is taken in and its flush scheduled. |
| Reactions.WhisperBeyondGap | src/character/group-chat-input.ts:340-350 | One beyond a gap marks the run, or opens an eligible idle window. |
| Reactions.PublicFrame | src/character/group-chat-input.ts:356-362 | A live public message is taken in if and only if someone else wrote it. |
| Reactions.NoticeTaken | src/character/group-chat-input.ts:356-362 | Others' board updates and welcome messages are taken in, own board updates are not. |
| Reactions.DeliveryWindowFetches | src/character/group-chat-input.ts:765-786 | The delivery window clears the mark and sends for what is unread, unless a settle came first. |
| Reactions.IdleWindowFetches | src/character/group-chat-input.ts:715-747 | The idle window sends for what is unread when no run is active. |
| Reactions.RunSettled | src/character/group-chat-input.ts:175-194 | The end of a run drops tokens, mark and delivery window, and sends for what waited. |
| Reactions.NotableIsFetched | src/character/group-chat-input.ts:255-305 | From a notification to its fetch: at the end of the run, at the delivery window, or at the idle window. |
| Reactions.BreakEndsPull | src/character/group-chat-input.ts:515-521 | A failed fetch ends the pull and changes nothing else; the next starts over from the cursor. |
| Reactions.PullGoesOnOnce | src/character/group-chat-input.ts:486-550 | After its flush a pull goes once more if it was asked to, and rests otherwise, its window cleared. |
| Reactions.ReadPageGoesOn | src/character/group-chat-input.ts:486-513 | The same after a page without anything unread, which moves the cursor. |
| Reactions.UnreadPageIsQueued | src/character/group-chat-input.ts:486-550 | A page with something unread is the last flush in the queue, behind everything pending. |
| Reactions.RefusedIsRetried | src/character/group-chat-input.ts:1455-1487 | A refused batch is kept and its retry scheduled. |
| Reactions.AcceptedIsHanded | src/character/group-chat-input.ts:1329-1450 | An accepted one is with pi; what came in meanwhile is scheduled. |
| Reactions.ReadBatchMovesCursor | src/character/group-chat-input.ts:1039-1080 | A batch that is read moves the cursor in memory and, if it could be written, in the file; or nothing. |
| Reactions.StopClears | src/character/group-chat-input.ts:586-602 | Leaving drops what is pending, every timer and every token. |
| Reactions.StoppedIsDeaf | src/character/group-chat-input.ts:586-602 | After it no frame, notification, page or batch changes anything. |
| Reactions.ReloadIsBlank | src/character/group-chat-input.ts:655-695 | What the next instance starts from, field by field. |
| Reactions.WedgedOnce | src/character/character-runtime.ts:397-439 | The watchdog ends a run as a settle does, and the settle that still comes later does nothing. |
| Reactions.NextRunSettles | src/character/character-runtime.ts:430-439 | Of the next run the settle counts again. |
| Reactions.RejoinIsBlank | src/character/character-runtime.ts:330-364 | What the instance after joining again starts from, field by field. |
| Aborts.BoundaryAbortsIff | src/character/group-chat-input.ts:608-626 | A boundary aborts if and only if the client runs, the run is active and marked, a token is queued and none was spent. |
| Aborts.WindowDuringRun | src/character/group-chat-input.ts:715-747 | A window that ends during a run marks it, with a token only if it was eligible and pi took it. |
| Profiles.SwitchRefused | src/character/model-transition-queue.ts:352-372 | A switch that is not of the active round, or whose model does not parse or resolve, changes nothing. |
| Profiles.FailedWriteKeepsLevel | src/character/model-transition-queue.ts:458-467 | When the write did not lead to the model the level is left alone. |
| Baselines.CaptureRecords | src/character/model-transition-queue.ts:330-349 | A capture records what is in effect in the masked dimensions, beside other rounds' baselines. |
| Baselines.RestoreStartsWrite | src/character/model-transition-queue.ts:381-412 | A restore to another model starts its write and keeps the baseline until it settles. |
| Baselines.RestoreGivesUp | src/character/model-transition-queue.ts:381-406 | One whose model is unknown or does not resolve gives the baseline up and changes nothing. |
| Baselines.RestoreInPlace | src/character/model-transition-queue.ts:407-428 | In place, the level is set exactly if it is another, and the baseline is given up. |
| Baselines.RestoreEnds | src/character/model-transition-queue.ts:413-477 | After a restore's own write the baseline is given up in any case, and the level set exactly if the write landed, on the baseline's model, and it is another. |
| Baselines.SwitchEnds | src/character/model-transition-queue.ts:447-477 | After a switch's own write the level is set exactly if it landed. |
| Baselines.BarrierEnds | src/character/model-transition-queue.ts:514-567 | At the barrier the level left over is set exactly on the write's target by the model the successor goes by. |
| Baselines.SubmissionMarksRound | src/character/model-transition-queue.ts:165-193 | A capture opens its round, a restore closes its own and no other. |
| Baselines.SuccessorTakesOver | src/character/model-transition-queue.ts:243-263 | A successor takes over tasks, write, records and round, and waits for the write first. |
| Baselines.LateTaskRuns | src/character/model-transition-queue.ts:270-291 | A task that slips in after the loop has ended starts it again. |
| Baselines.ReferenceIs | src/character/model-transition-queue.ts:92-110 | A reference is split at its first slash, each part trimmed, neither empty. |
| Availability.ClaimHolds | src/creator/creator-pipelines/claim-pipeline.ts:45-58 | A claim reserves exactly if the connection has joined, holds nothing yet and nobody holds the character; nothing else changes. |
| Availability.ReadyHolds | src/creator/creator-pipelines/ready-pipeline.ts:66-92 | Ready turns the reservation into the online entry of the same session with its socket, or changes nothing. |
| Availability.TimeoutFrees | src/creator/member-bookkeeping.ts:39-49 | A reservation that never became ready is free again after its time, and nobody else's character is touched. |
| Availability.LeaveFrees | src/creator/member-bookkeeping.ts:67-87 | Leaving, or the cleanup after a failed send, frees character and socket. |
| Availability.JoinBinds | src/creator/creator-pipelines/join-pipeline.ts:42-52 | Joining binds the session exactly if it has no socket and the connection is neither online nor bound to another. |
| Heartbeat.ForgivesIff | src/creator/heartbeat-registry.ts:84-107 | A tick forgives everyone if and only if every tick since the last handoff is more than two intervals ago. |
| Heartbeat.WatchedIff | src/creator/heartbeat-registry.ts:49-63 | A member is watched if and only if it was registered and not removed since. |

## Left out

- Sockets, the JSON-RPC library, schemas and frame encoding: an ordered channel of typed frames stands for them.
- Real time: timers fire at any moment. Only the heartbeat works with integer time.
- The prompt text a batch is rendered to, diagnostics and test holds; `getGroupChatState` only as the await it is, and
  `buildContent` as never throwing.
- Live `public_message` frames are taken in as the handler does, though the creator of this repository never sends
  them; `message_history` frames, which it never sends either, are not modelled, only the paging loop behind them.
- The preset by a history query when the ready response carries no watermark or the cursor file cannot be read after
  a reload (src/character/group-chat-input.ts:400-414), and a client without a cursor file path.
- A second flush timer that a restored, already expired debounce can leave beside a new one: one more flush of what is
  pending, which the step system does not have as an event of its own.
- The stale recovery budget and the once-only unread hint of `speak` and `whisper`
  (src/character/character-runtime.ts:678-943): counters that only choose texts; the mark
  they set is the event `MarkedPending`.
- A failing creation of the fresh session manager during a rollback (src/data/session-store.ts:309-312).
- A reload snapshot written by an older version, which lacks the mark and is treated as if it were set.
- Warning texts and the barrier's timeout, which only warns; executor errors other than a refused or failed write and
  a thinking level that does not take.
- Boards, discovery descriptors (only whether their update succeeds), cards, configuration, trash, commands, the
  interface, the headless entry and the resume display projection.
- Socket buffering during a reload: only what it does to cursor, pending items, marks, timers and the model queue.
- NothingSkipped: holds for runs in which no merge, no batch of another chat and no change of character reaches over a
  message still to be read, because the code lets all three (`Merging.UnsafeMergeSkips`, `Crossing.ForeignBatchSkips`,
  `Crossing.RejoinSkips`); the conditions are exact by `Merging.RunSkipsIff`, `Crossing.RunForeignSkipsIff` and
  `Crossing.RunRejoinSkipsIff`.
- AlwaysScheduled: holds for runs whose reloads come while the debounce is due, because the code has the gap shown by
  `Scheduling.LateReloadStrands`.
- PublishedHasRead: inherits the same conditions from `NothingSkipped`.
- AlwaysConserved: is per runtime, because a reload snapshot carries neither the retry slot nor a running flush
  (src/character/group-chat-input.ts:655-663).
- AlwaysTriggered: stops speaking once a fetch has failed, because the code then waits for the next notification, and
  starts anew at a reload with neither mark nor idle window, because the code then forgets what it had asked for; that
  condition is exact by `Triggers.ReloadCausesIff`.
- HandoffIsTransparent: asks for working getters and an executor for which setting the level in effect changes nothing,
  because without either the two paths differ (`Divergence.UnobservedPathsDiffer`,
  `Divergence.UnsteadyPathsDiffer`).
