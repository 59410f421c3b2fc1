# A verified model of the messages bridge

The bridge keeps a phone's messages, conversations, outgoing requests and import
jobs in one transactional file, lets several workers and clients share it, and
re-pairs with a phone when it must. This project models that core in Dafny 4.11
and proves what its code and comments promise, for every input, every run of
transactions and every interleaving of its actors.

`dafny verify dfyconfig.toml` checks everything.

## How it is laid out

**The store.** `Records` and `Buckets` hold the wire records and the ordered
buckets. `StoreSpec` says what each transaction computes, as a function from one
committed database value to the next (`DB`), and what a run is: any sequence of
transactions (`Txn`, `Step`, `Run`), where a crash between two of them changes
nothing. `Engine.Store` is the store as the class it is: every method is one
transaction, or a step inside one, written with the source's own branches and
loops and proved to compute its `StoreSpec` function, rolling back on error. It
keeps the buckets in one field, so that rolling back is putting the old value back.
Properties are then proved of the functions and over runs:

- `Frames`: the log is contiguous and `latest` is its fold; observation numbers only rise; what each step leaves alone.
- `Redelivery`, `Fence`: applying a live event twice, and history that arrives after something newer.
- `Sending`: the life of an outbox record. `Counters`: the read-only boundary's counts.
- `Outcomes`: what each committed transaction makes of an outbox record, and what a record's state says about the run behind it.
- `Newest`, `Rows`, `Previews`, `Badges`, `Search`: the newest-message cache, row times and what rows show, unread badges, the message index and the narrowed search. `Opening`: what opening a file leaves.
- `HistoryJobs`, `ImportControl`, `Pages`: import generations and cursors, what starts and stops an import, the chain of pages and termination.
- `Replay`: a client that loads three lists at three moments and replays the log.
- `Committed`: which transactions of a run committed rather than aborted, and in which order.
- `Examples`: for each promise that can fail, a short run from an empty file on which it does.

**The bridge.** Workers that share the store are methods over an `Engine.Store`
with a *schedule*: what every other actor does at each of the worker's pauses.
Their contracts hold for all schedules. Protocols are state machines whose steps
are the regions the source runs under one lock.

- `HistoryWorker`, `SendWorker`: the two background workers. `PageEffects`: what a page can do to what is stored.
- `Pairing`: the pairing protocol, as the class `Pairing.Bridge` and as functions of what its state lock guards. `Attempts`: an attempt from its beginning to its end. `Admission`: queueing and claiming against pairing. `Recovery`, `RecoveryControl`: the unattended re-pairing budget, and what stops and starts it.
- `Stream`: server-sent events over wake-up hints. `Inbox`, `Reactions`: the WhatsApp inbox and the reaction list.

Properties that turned out false are kept as results. Each has the exact
condition under which the code meets it and a run from an empty file on which it
does not:

- `FinishConversation` stamps a conversation after storing it, so a conversation the store has never seen is taken off a count it was never on (`Counters.FinishExactIff`, `Examples.MiscountExample`).
- `FinishConversation` also stores the provider's bare row over one a newer message already summarised, so the row's time can fall below its newest message; the comment above `recentMessageRecords` says it never does (`Rows.FinishFloorIff`, `Examples.LoweringExample`); one of exactly that time replaces the message's preview by its own (`Previews.FinishShowsIff`, `Examples.UnlabelledExample`).
- A message that goes blank, changes conversation or moves back in time stays in the newest-message cache if it was the one shown (`Newest.ApplyExactIff`, `Examples.WithdrawnExample`).
- The messages an earlier phone left can be later than the session's cache and rows. The narrowed search then misses them (`Search.NeverSkippedIff`) and a rebuild of the cache brings them in (`Newest.RebuildAgreesIff`); once they are adopted, the cache is behind (`Newest.AdoptExactIff`) and a row is earlier than its message (`Rows.AdoptFloorIff`, `Examples.AdoptionExample`).
- The message index only grows, so it is exact as long as no message changes conversation, as its comment assumes (`Search.FreshIndexExactIff`, `Examples.MovedExample`).
- A client whose history request alone fails moves its replay past job events it never saw, and replaying on does not bring them back (`Replay.ReloadWithoutJobs`, `Replay.CatchUp`, `Replay.SkippedJobExample`).

## Model

| member | source | states |
|---|---|---|
| Records.PreviewTextMeaning | internal/model/model.go:127-145 | the preview of a message is its words with single blanks between them, cut at the limit with an ellipsis and no blank before it; without text it names what the first attachment is; it is empty exactly without either |
| Records.TidyIsUnique | internal/model/model.go:129 | the words and single blanks between them determine that text |
| Records.EqualIsIdentity | internal/model/model.go:147-149 | comparing requests field by field is comparing them whole, so a reused idempotency key is only accepted for the same request |
| Buckets.ListKeys | internal/store/records.go:29-43 | visiting a bucket gives every key once, in byte order |
| Buckets.ScanPrefix | internal/store/records.go:349-372 | seeking to a prefix and stopping at the first other key visits exactly the keys with the prefix, in order |
| Engine.MergeLatestMessage | internal/store/conversation.go:102-128 | the in-place merge of a newest message into a row computes the specified row and change flag; what the row then shows is Previews.AppliedShows |
| Engine.Store.AppendTx | internal/store/store.go:236-278 | one append: sequence, log, latest and index move together, an identical snapshot changes nothing, bad data aborts |
| Engine.Store.ObserveTx | internal/store/store.go:307-314 | an observation takes the next version number |
| Engine.Store.StampEpoch | internal/store/pairing.go:31-52 | stamping claims a record and takes it off the count of earlier sessions once |
| Engine.Store.UpdateConversationTx | internal/store/conversation.go:168-193 | a stored row is observed, changed and appended only if it changed; missing or foreign rows are left alone |
| Engine.Store.PreviewConversation | internal/store/conversation.go:130-164 | a row snapshot keeps the newer preview already stored for this session and takes the cached newest message |
| Engine.Store.RefreshConversationTx | internal/store/conversation.go:217-236 | a message becomes its conversation's newest unless the remembered one is ahead in time and id |
| Engine.Store.WriteOutbox | internal/store/records.go:89-99 | the record and its log entry are written together |
| Engine.Store.ConfirmSendTx | internal/store/records.go:199-216 | an echo confirms the record of its transaction id if session, kind, conversation and state allow |
| Engine.Store.Apply | internal/store/store.go:166-235 | the whole apply transaction with all its helpers, or no change at all |
| Engine.Store.ReadConversation | internal/store/conversation.go:195-212 | reading a conversation is the row update it is, or no change |
| Engine.Store.FinishConversation | internal/store/features.go:29-66 | finishing a conversation request stores, then stamps, then finishes the record, or changes nothing |
| Engine.Store.Enqueue | internal/store/records.go:100-124 | a new id is queued for the current session; a known id returns its record or conflicts |
| Engine.Store.ClaimQueued | internal/store/records.go:376-391 | only a queued record is claimed, durably |
| Engine.Store.RejectQueued | internal/store/records.go:392-404 | only a queued record is rejected |
| Engine.Store.CancelQueued | internal/store/records.go:222-240 | canceling is idempotent and only reaches queued records |
| Engine.Store.Finish | internal/store/records.go:153-167 | a result is recorded only for a record still being sent |
| Engine.Store.RewriteOutbox | internal/store/pairing.go:203-225 | a bulk rewrite collects the records it changes and writes each of them |
| Engine.Store.RecoverSending | internal/store/records.go:169-198 | a restart rebuilds the transaction index and marks interrupted sends ambiguous |
| Engine.Store.QueueHistory | internal/store/features.go:89-122 | queueing, resuming and restarting an import, with the progress a restart forgets |
| Engine.Store.PauseHistory | internal/store/features.go:123-139 | pausing keeps the cursor; a complete job stays complete |
| Engine.Store.CheckpointHistory | internal/store/features.go:150-201 | a page turn of the current generation and cursor, with completion and repeated-cursor failure, or no change |
| Engine.Store.FailHistory | internal/store/features.go:207-219 | only the queued job of the same generation fails |
| Engine.Store.UpgradeSessionMetadata | internal/store/pairing.go:85-130 | records without a session are given the current one |
| Engine.Store.BeginPairingAttempt | internal/store/pairing.go:132-146 | beginning cancels everything queued and leaves the marker, in one transaction |
| Engine.Store.ClearPairingAttempt | internal/store/pairing.go:148-154 | the marker is removed and nothing else |
| Engine.Store.RecoverPairingAttempt | internal/store/pairing.go:179-202 | a leftover marker is cleared and reported; a malformed one is an error |
| Engine.Store.AdoptStoredRecords | internal/store/pairing.go:233-268 | every stored conversation and message is claimed, and exactly the ones that moved are counted |
| Engine.Store.SaveSession | internal/store/store.go:103-107 | a refreshed session replaces the stored one and nothing else |
| Engine.Store.SavePairedSession | internal/store/pairing.go:273-358 | storing a session, and for a new phone starting a new epoch with counters, cache, private data and jobs reset |
| Engine.Store.EnsureMessageIndex | internal/store/records.go:326-345 | rebuilding the index folds in every stored message |
| Engine.Store.EnsureConversationPreviews | internal/store/conversation.go:242-276 | rebuilding the cache folds in every stored message, then every row |
| Engine.Store.Open | internal/store/store.go:35-86 | opening builds missing buckets and lifts the version sequence to the event sequence, or fails without change |
| Committed.AbortChangesNothing | internal/store/store.go:166-235 | a transaction of a run either goes through or leaves no trace |
| Committed.InOrderAt | internal/store/store.go:166-235 | of transactions said to go through in order during a run, each is in the run where it commits |
| Frames.StepEvolves | internal/store/store.go:236-278 | every transaction, from any state: the log only grows, stays contiguous with `latest` its fold, and no record's observation number falls |
| Frames.RunEvolves | internal/store/store.go:236-314 | the same over every run |
| Frames.StepFrame | internal/store/pairing.go:85-358 | no outbox, import or pairing transaction touches a conversation, a message or the index |
| Redelivery.MergeSettles | internal/store/conversation.go:102-128 | a merged row has nothing left to take from the same message |
| Redelivery.RedeliveryIsIdempotent | internal/store/store.go:166-278 | applying the same live event again, at any later time, reports no change and changes nothing but the observation numbers |
| Redelivery.ReachableRedelivery | internal/store/store.go:166-278 | the same from every state a run can leave |
| Fence.StepObserved | internal/store/store.go:169-220 | every kind of observation is numbered above all watermarks read before it |
| Fence.HistoryFence | internal/store/store.go:169-220 | once a record was observed after a watermark was read, applying it under that watermark leaves its snapshot, private data, cache and ownership as they are and at most confirms a send, whatever ran before, between and after |
| Fence.FinishFence | internal/store/features.go:42-61 | the same fence on the row a conversation request returns |
| Sending.StepKept | internal/store/records.go:89-240 | one transaction moves a record only forward, keeps its request, starts sending only by a claim, ends it only by the sender or a restart, confirms only by an echo, and creates it only queued |
| Sending.RunReaches | internal/store/records.go:89-240 | over any run `queued` is never re-entered and `canceled` and `confirmed` are final |
| Sending.AtMostOnce | internal/store/records.go:376-391 | over any run with crashes a record is claimed, and becomes `sending`, at most once |
| Sending.ConfirmationStands | internal/store/records.go:153-167 | however late, a result cannot undo an observed confirmation |
| Sending.RunMirrored | internal/store/records.go:89-99 | the log's snapshot of an outbox record is always the record |
| Sending.PairingEmptiesQueue | internal/store/pairing.go:203-225 | beginning or committing a pairing leaves nothing queued |
| Sending.StepLinked | internal/store/records.go:169-216 | every known transaction id names the record created for it, across index rebuilds |
| Sending.ConfirmedByOwnEcho | internal/store/records.go:199-216 | in every run a record is confirmed only by a message of its own transaction, conversation and session |
| Outcomes.StepTakes | internal/store/records.go:89-240 | every committed transaction makes of every record exactly this, field by field: claimed, rejected, canceled, accepted, ambiguous, confirmed or given a session, with its detail and time; an aborted one makes nothing of it |
| Outcomes.RunGoesThroughIff | internal/store/records.go:100-240 | in every run, a transaction on the outbox commits if and only if its record is there in a state that allows it |
| Outcomes.RestartEndsSending | internal/store/records.go:169-198 | after a restart no record is `sending`, each that was is ambiguous and says so, and every other is as it was |
| Outcomes.EveryStateHasItsReason | internal/store/records.go:89-240 | at any point of any run a record's state was put there by a transaction that committed: accepted only by a result that says so or a finished conversation, rejected only by a result that says so or a rejection, ambiguous only by a result that says so or a restart, canceled only by its cancellation or a pairing, sending only by its claim, confirmed only by its echo |
| Outcomes.EnqueueTakes | internal/store/records.go:100-124 | a new id is queued with its own request, for the current session, findable by its transaction id |
| Outcomes.EnqueueIsIdempotent | internal/store/records.go:100-124 | however late, the same request under the same id gives back its record and changes nothing; another request is refused |
| Outcomes.SendGoesOn | internal/store/records.go:199-216 | as long as nobody ends it, a send goes on until a message of its conversation confirms it |
| Outcomes.RestartRelinks | internal/store/records.go:169-198 | a restart makes every record's transaction id known, in a file that never had the index too |
| Outcomes.OwnEchoConfirmsIff | internal/store/records.go:199-216 | over every run with fresh transaction ids, an applied message confirms a record if and only if it carries its transaction id, is of its conversation and session, and the record was handed to the provider and not confirmed yet |
| Counters.GuardNeverMasks | internal/store/pairing.go:31-52 | the underflow guard never hides a record that was counted |
| Counters.StepExact | internal/store/pairing.go:31-80 | every accountable transaction keeps the stored count equal to the number of records not of the current session |
| Counters.RunCounted | internal/store/pairing.go:303-316 | over every accountable run both counters are exact |
| Counters.AdoptReportsCounters | internal/store/pairing.go:233-268 | adoption reports exactly what the two counters promised |
| Counters.FinishExactIff | internal/store/features.go:42-61 | finishing a conversation request keeps the count exact if and only if the row was known, current, fenced off, or the count had nothing to lose |
| Examples.MiscountExample | internal/store/features.go:42-61 | a run after which it is wrong: one row, a new phone, and a request that leads to a conversation never seen |
| Newest.RememberExactIff | internal/store/conversation.go:217-236 | folding a message into the cache keeps it the (time, id) maximum if and only if it does not withdraw the message shown |
| Newest.ExactIsUnique | internal/store/conversation.go:217-276 | exactness determines the cache |
| Newest.ApplyExactIff | internal/store/store.go:183-220 | the same for the whole apply transaction |
| Newest.RunExact | internal/store/conversation.go:217-276 | over every steady run, new phones and adoptions included, the cache is the recomputation from this session's messages |
| Newest.ArrivalOrderIrrelevant | internal/store/conversation.go:217-236 | two histories with the same session messages end with the same cache |
| Newest.RebuildExact | internal/store/conversation.go:242-276 | rebuilding from messages in any order gives the exact cache of those messages |
| Newest.RebuildAgreesIff | internal/store/conversation.go:242-276 | throwing the cache away and rebuilding it from every stored message, as a start without the bucket does, gives the same cache if and only if no message of an earlier session is later than what the cache shows for its conversation |
| Newest.AdoptExactIff | internal/store/pairing.go:233-268 | adoption keeps the cache exact if and only if no stored message of an earlier session is later than what the cache shows for its conversation |
| Newest.FixedMessagesAreSteady | internal/store/conversation.go:217-236 | a message that keeps its conversation and time and still shows something is always folded in correctly |
| Examples.WithdrawnExample | internal/store/conversation.go:35-46 | a run after which it is wrong: a message arrives, is withdrawn, and still heads its conversation |
| Rows.StepFloors | internal/store/conversation.go:98-193 | every grounded transaction keeps each row no earlier than its cached message, and each session message no later than the cached one or the session's row |
| Rows.RowNoEarlierThanMessages | internal/api/records.go:299-300 | over every grounded run, adoptions included, a row is no earlier than any message of its session |
| Rows.RunRises | internal/store/conversation.go:130-164 | within a session a row's time never falls |
| Rows.FinishFloorIff | internal/store/features.go:42-61 | after a finished conversation request the row stays no earlier than its messages if and only if the provider's row already was |
| Rows.AdoptFloorIff | internal/store/pairing.go:233-268 | after adoption rows stay no earlier than their messages if and only if no message of an earlier session is later than both its cached message and the stored row |
| Previews.SourceDescribes | internal/store/conversation.go:35-46 | a message can head a row exactly when it is complete and has text, an attachment or was deleted, and is remembered with its own id, time, text, sender and direction |
| Previews.AppliedShows | internal/store/conversation.go:98-128 | applying a message: if it is not stale, has something to show, is not behind the remembered one and not earlier than its stored row, that row shows its text, sender, direction and time and keeps everything else; in every other case, and for every other row, nothing of the row changes |
| Previews.SnapshotShows | internal/store/conversation.go:130-164 | a preview derived from a newer message survives an older snapshot of the row, a newer snapshot replaces it, the remembered message is shown if it is as late, and the rest of the row is the snapshot's |
| Previews.RowShowsNewestMessage | internal/store/conversation.go:98-236 | over every run: a row exactly as late as its session's newest message shows that message's text, sender and direction |
| Previews.FinishShowsIff | internal/store/features.go:42-61 | a finished conversation request keeps that so if and only if the provider's row is fenced off, of another time, or shows it already |
| Previews.RebuildFollows | internal/store/conversation.go:242-276 | rebuilding the cache brings every row up to its newest message: no earlier, and showing it if as late |
| Opening.OpenedFile | internal/store/store.go:35-86 | an opened file has an index of exactly its messages, the cache they determine if it had none, with rows to match, and a watermark no observation lies above, numbered as in older files or not |
| Examples.LoweringExample | internal/store/features.go:42-61 | a run after which a row is earlier than its newest message |
| Examples.UnlabelledExample | internal/store/features.go:42-61 | a run after which a row is as late as its newest message and does not show it |
| Examples.AdoptionExample | internal/store/pairing.go:233-268 | a message, a new phone and its older row: the session's own cache and rows are right, but the narrowed search misses the earlier message; after adoption the cache is behind, the row is too early and the search still misses it |
| Badges.ApplyLights | internal/store/conversation.go:53-68 | applying an event lights a badge only for its own row snapshot or for a new, live, undisplayed, recent incoming message |
| Badges.ApplyLightsIff | internal/store/conversation.go:53-68 | a stored row's badge after any applied event: lit by a fresh message that goes to its head, put out by one displayed on the phone or sent by the owner, set by a snapshot of the row unless the stored one is later, and otherwise as it was |
| Badges.ApplyCounts | internal/store/conversation.go:111-124 | the WhatsApp count goes up by one, wrapping around, for a fresh message, and to zero when the badge is put out |
| Badges.ReadStaysRead | internal/store/conversation.go:195-212 | a read conversation stays read through redelivery, receipts, history and restarts until something new arrives |
| Badges.ReadingClears | internal/store/conversation.go:195-212 | reading through the row's time clears flag and count; reading through less changes nothing |
| Search.IndexKeyInjective | internal/store/records.go:305-307 | one NUL separates conversation and message ids when conversation ids hold none |
| Search.FreshIndexExactIff | internal/store/records.go:309-325 | the index stays exactly the stored messages if and only if the message does not change conversation |
| Examples.MovedExample | internal/store/records.go:309-325 | a run after which the index lists a message in a conversation it left |
| Search.ListedExactly | internal/store/records.go:349-372 | the index walk finds exactly the stored messages of one conversation |
| Search.RebuiltIndexIsExact | internal/store/records.go:326-345 | an index built from scratch is exact |
| Search.ConversationMessages | internal/store/records.go:349-372 | the cursor loop returns the records the index lists |
| Search.SnapshotCurrent | internal/store/records.go:284-302 | every record of a kind in key order, with its session flag and the cursor of the same read |
| Search.RecentMessages | internal/api/records.go:301-325 | the narrowed scan returns the messages of rows updated at or after `since`, and fails only on a row that does not decode |
| Search.NewestMessages | internal/api/records.go:329-349 | the decoded messages without protocol records, newest first, none lost or doubled |
| Search.NarrowScanIff | internal/api/records.go:299-325 | whichever session a stored message came in, the narrowed scan reads it if and only if its conversation has a row updated at or after `since` |
| Search.NeverSkippedIff | internal/api/records.go:299-300 | so no search reaching back to a message skips it if and only if its row is no earlier than it |
| Search.NarrowScanFinds | internal/api/records.go:299-325 | which always holds of the session's own: every one with something to show at or after `since` in a stored conversation is scanned |
| Search.NarrowScanOnce | internal/api/records.go:301-325 | no message is scanned twice |
| Search.SearchPagesAgree | internal/api/records.go:299-349 | of those messages the narrowed and the full search give the same list in the same order |
| Search.SearchAfterRun | internal/api/records.go:299-349 | the same after every orderly run from an empty file, adoptions included |
| HistoryJobs.StepTrack | internal/store/features.go:89-219 | what any transaction may do to a job: a page turn, a stop, a resume under a new generation, a start over, or nothing that counts |
| HistoryJobs.RunCursor | internal/store/features.go:140-201 | while the generation is the same, so is the cursor, whatever pauses, resumes, restarts and pairings happened |
| HistoryJobs.CheckpointNeverConflicts | internal/store/features.go:150-201 | a worker reading job, cursor and checkpointing in separate transactions never gets a conflict |
| HistoryJobs.StaleGenerationStops | internal/store/features.go:150-219 | a page read under an old generation changes nothing, ever |
| ImportControl.ControlGoesThroughIff | internal/store/features.go:89-219 | queueing always goes through; pausing and failing do if and only if the job is known; a page turn does unless the cursor of the current generation is another |
| ImportControl.PauseStops | internal/store/features.go:123-139 | pausing makes a job that is not complete paused, with the same generation, cursor, pages and counts |
| ImportControl.FailStops | internal/store/features.go:207-219 | a failure stops the queued job of its generation with its reason and keeps all progress, and leaves any other alone |
| ImportControl.QueueStarts | internal/store/features.go:89-122 | queueing makes a stopped job due at once under the next generation for the current session, going on where it was, or from nothing on a restart |
| ImportControl.RetryWaits | internal/store/features.go:170-173 | a page that could not be fetched leaves the job queued where it was, due again after half a minute |
| ImportControl.ListedConversationIsImported | internal/bridge/history.go:14-40 | a listed conversation never imported gets a due import of its own messages |
| ImportControl.NewPhonePauses | internal/store/pairing.go:317-352 | a new phone pauses every import under its next generation, with the reason and nothing read |
| ImportControl.PausedUntilQueued | internal/store/features.go:123-219 | after a pause or a failure no page of the job is turned and no round chooses it until a request to queue it goes through |
| ImportControl.StoppedUntilQueued | internal/bridge/history.go:63-85 | the same of any job that is not queued, over every run |
| ImportControl.RecordsAddUp | internal/store/features.go:175-194 | the record count of a job is the sum over the pages read since it last started over |
| ImportControl.UpgradeAssigns | internal/store/pairing.go:85-130 | an upgrade gives jobs without a session the current one |
| Pages.RunFollows | internal/store/features.go:150-201 | in every run the stored cursor, page count, seen pages and completion are those of the job's chain of pages |
| Pages.CompleteMeansWholeChain | internal/store/features.go:150-201 | `complete` means the chain goes link by link from the empty cursor to the empty cursor |
| Pages.RepeatFailsAtOnce | internal/store/features.go:184-194 | the first page leading back to a cursor already read fails the job, and no other page does |
| Pages.PagesCountCursors | internal/store/features.go:175-194 | until a repeat all cursors read since the last restart differ and number exactly `pages` |
| Pages.ImportTerminates | internal/store/features.go:150-201 | if cursors come from a finite set, a generation turns at most one page more than there are cursors it has not seen |
| HistoryWorker.ChooseJob | internal/bridge/history.go:63-85 | the worker takes a due queued job no due job is older than |
| HistoryWorker.QueueMessages | internal/bridge/history.go:14-40 | an import of a listed conversation is queued, and the queueing commits, after checks in separate transactions that it is current, short enough and stored; a failure means the store refused or one of them did not hold |
| HistoryWorker.ApplyPage | internal/bridge/history.go:115-126 | a page succeeds only if every snapshot, in order, was applied as history under the watermark read before the request and its application committed, and so did the queueing of each import it lists; it fails only if the store refused the last of them or a listed conversation may not be imported |
| HistoryWorker.HistoryOne | internal/bridge/history.go:63-132 | one round under any schedule: never a conflict; a checkpoint, if there is one, comes last, for the job chosen and its generation, from the cursor read, after the whole page was committed under the watermark read; and what the round reports is what the phone answered and what the store did |
| HistoryWorker.HistoryLoop | internal/bridge/history.go:41-62 | the worker's whole life is such rounds one after the other, with everything the others did between and during them, until the first that breaks |
| HistoryWorker.CompleteMeansApplied | internal/bridge/history.go:115-130 | the pages of a complete import form one chain, and each was turned at the end of a round of its own that read its cursor and committed all of it first |
| HistoryWorker.PageWentThrough | internal/bridge/history.go:115-130 | snapshot by snapshot: its apply, and the import it leads to, went through in the store after the watermark was read and before the page was turned |
| PageEffects.RoundNeverOverwrites | internal/bridge/history.go:86-126 | in the worker's rounds, a record observed after the round read its watermark is not changed by the page |
| PageEffects.PageLightsNothing | internal/store/conversation.go:48-52 | a page of history lights no badge but with a snapshot of the row itself |
| SendWorker.ScanQueued | internal/bridge/service.go:289-302 | the scan lists exactly the queued records, oldest first |
| SendWorker.Consider | internal/bridge/service.go:304-362 | one candidate: prepared, rejected, blocking its conversation, or claimed while nobody is stopping or pairing, with a verdict its turn accounts for |
| SendWorker.CandidateIsFirst | internal/bridge/service.go:302-352 | a candidate whose conversation is not blocked has no older queued record in its conversation |
| SendWorker.Dispatch | internal/bridge/service.go:363-402 | after a claim the result is recorded last, under the watermark read before the claim and without conflict, whatever the others did during the call |
| SendWorker.SendOne | internal/bridge/service.go:284-404 | one round under any schedule: at most one provider call, for the candidate whose turn it was, claimed by the round's only successful claim in a state of the round in which no older record of its conversation is queued; afterwards the stored record is accepted if the provider answered, rejected if it refused, ambiguous if it did neither, each with its detail, or confirmed by its own echo during the call, or still being sent if the store failed; never a conflict; an idle round leaves only conversations that were not ready |
| SendWorker.AnsweredConversationStored | internal/store/features.go:42-61 | the conversation the provider answers with is stored and the session's own, unless it was observed since the watermark was read: then it stays as it is |
| Pairing.SupersededHasNoEffect | internal/bridge/pairing.go:305-327 | once a generation is superseded, leaving out everything done in its name changes nothing, over every interleaving |
| Pairing.DecidedIsFinal | internal/bridge/pairing.go:161-327 | generations only grow and a decided one is never touched again |
| Pairing.ReplacedMeansPaired | internal/bridge/pairing.go:445-468 | a generation that replaces the session was undecided and is then paired, in one step |
| Pairing.OneOutcome | internal/bridge/pairing.go:276-468 | over every interleaving, token refreshes included, a generation replaces the session at most once, and never if it was canceled or failed |
| Pairing.SessionIsLastStored | internal/bridge/google.go:42-53 | over every interleaving the stored session is the one the last commit or token refresh stored, and nothing else touches it |
| Pairing.RefreshesChangeNothingElse | internal/bridge/google.go:105-110 | leaving token refreshes out of any interleaving gives the same generations, outcomes, epoch, budget, marker and records |
| Pairing.Bridge.RefreshSession | internal/bridge/google.go:105-110 | an established connection saves its refreshed session, one still pairing does not |
| Pairing.TicketAlwaysShown | internal/bridge/pairing.go:161-240 | a ticket is visible exactly while a sign-in is awaited |
| Pairing.TicketsAcceptedOnce | internal/bridge/pairing.go:216-240 | a ticket is accepted no more often than it was issued |
| Pairing.KeepNeeded | internal/bridge/pairing.go:225-234 | only the cookies pairing needs are kept, and an oversized one refuses them all |
| Pairing.Bridge.Begin | internal/bridge/pairing.go:161-212 | beginning and repairing, with every refusal leaving things as they were |
| Pairing.Bridge.BeginWhatsApp | internal/bridge/whatsapp.go:65-95 | the same for WhatsApp |
| Pairing.Bridge.Submit | internal/bridge/pairing.go:216-242 | cookies are accepted exactly for the live ticket in time, complete and in size |
| Pairing.Bridge.Cancel | internal/bridge/pairing.go:276-300 | afterwards no attempt is active: one that was is canceled, under its generation, with its credentials gone |
| Pairing.Bridge.Expire | internal/bridge/pairing.go:49-65 | an expired attempt nobody is carrying out fails and clears its marker |
| Pairing.Bridge.Conclude | internal/bridge/pairing.go:305-327 | a verdict counts only for the undecided generation it names |
| Pairing.Bridge.ShowEmoji | internal/bridge/pairing.go:397-405 | the emoji is shown only for the generation that is connecting |
| Pairing.Bridge.ShowCode | internal/bridge/whatsapp.go:96-114 | a code replaces the one before it, for the active generation only |
| Pairing.Bridge.Take | internal/bridge/pairing.go:377-388 | the worker takes the credentials of the generation it looked up, if that is still connecting |
| Pairing.Bridge.Release | internal/bridge/pairing.go:416-421 | only the attempt still registered is released |
| Pairing.Bridge.CommitSession | internal/bridge/pairing.go:447-468 | commit and outcome are one step; a superseded or canceled attempt is refused |
| Attempts.BeginOpensIff | internal/bridge/pairing.go:161-212 | an attempt is opened if and only if it may begin and the store notes it: under the next generation, for the phone asked for, with its lifetime, ticket or credentials and its marker; otherwise nothing happens |
| Attempts.VerdictDecides | internal/bridge/pairing.go:276-327 | an attempt ends if and only if it is canceled, expires idle, is given a verdict or has its session stored, and is then in that state under its generation with nothing of it shown or kept |
| Attempts.VerdictClearsMarker | internal/bridge/pairing.go:301-327 | an attempt that fails, expires or stores its session takes its marker with it |
| Attempts.CancelDecides | internal/bridge/pairing.go:276-300 | canceling always ends what is active, and does nothing else |
| Attempts.EndedForGood | internal/bridge/pairing.go:276-468 | whatever follows, an attempt that was canceled, failed or expired never replaces the session, stays as decided, and its ticket is not accepted unless issued again |
| Attempts.NewPhoneHonoured | internal/bridge/pairing.go:447-468 | whatever happens in between, the commit of a generation starts a new session, forgetting what the old one remembered, if and only if the request that opened it was for a new phone |
| Attempts.ConnectedPhoneKeepsSession | internal/bridge/pairing.go:447-468 | a phone that saves its own session again starts no new one |
| Attempts.CredentialsAreLastGiven | internal/bridge/pairing.go:216-240 | over every interleaving, credentials waiting for the worker are the last ones given |
| Attempts.SubmitHandsOver | internal/bridge/pairing.go:216-240 | an accepted sign-in hands over exactly the cookies pairing needs and spends the ticket |
| Attempts.TakeTakes | internal/bridge/pairing.go:377-388 | the worker that takes a connecting attempt leaves its credentials to nobody else |
| Attempts.RunningBlocks | internal/bridge/pairing.go:377-421 | while an attempt is being carried out, ended or not, no other begins |
| Attempts.CodesAreShown | internal/bridge/whatsapp.go:96-114 | the emoji, the QR code and the pairing code are shown as they came, for the active generation only, one in place of another |
| Attempts.CancelingClearsUp | internal/bridge/pairing.go:243-300 | a cancellation leaves neither an active attempt nor its marker |
| Attempts.InterruptedPairingIsReported | internal/store/pairing.go:179-202 | a pairing that was going on when the process died is reported to the next one, once |
| Admission.NothingQueuedWhilePairing | internal/bridge/service.go:185-192 | over every interleaving with crashes nothing is queued while a pairing is active |
| Admission.ClaimsStayInSession | internal/bridge/service.go:652-659 | every claim is made outside pairing, for a record of the store's own session |
| Admission.ClaimIsInSession | internal/store/records.go:376-391 | the same over every run of transactions, session upgrades included |
| Attempts.AdmittedIsQueued | internal/bridge/service.go:185-258 | a request that is admitted is queued |
| Attempts.AdmittedIsClaimed | internal/bridge/service.go:652-659 | a claim that is admitted takes its record out of the queue, to be sent |
| Admission.SentAtMostOnce | internal/bridge/service.go:652-659 | with any interleaving of requests, workers, pairings and crashes a record is sent at most once |
| Admission.NothingCrossesAPairing | internal/store/pairing.go:132-146 | a record waiting when a pairing begins is canceled by it and never sent |
| Admission.SystemIsRun | internal/bridge/pairing.go:161-468 | whatever the interleaving, the store has seen one run of transactions |
| Recovery.UpdatePairingRecovery | internal/store/pairing_recovery.go:32-55 | the stored budget is read, changed and written back in one transaction |
| Recovery.BudgetHolds | internal/bridge/pairing_recovery.go:11-14 | in every run with crashes a budget allows three automatic starts, each two a lifetime and a cooldown apart |
| Recovery.StartsOnlyWhenAllowed | internal/bridge/pairing_recovery.go:68-102 | none happens while disabled, paused, offline or busy |
| Recovery.CheckedBeforeStart | internal/bridge/pairing_recovery.go:73-101 | in every run with crashes each automatic start follows an eligible check and then a reservation taken off the stored budget, with no crash since the check, and is entered under that reservation |
| Recovery.RegionBudget | internal/store/pairing.go:275-281 | of the protocol's steps only storing a session gives the budget back |
| Recovery.RecoverPairing | internal/bridge/pairing_recovery.go:68-102 | check, reserve, start; a wait is reported if and only if an attempt is left and has to wait, and is what is missing to its time |
| RecoveryControl.PauseBars | internal/bridge/pairing_recovery.go:105-119 | after pausing or switching off, nothing is started automatically until recovery is granted a new budget, over every run with crashes |
| RecoveryControl.BarredUntilGranted | internal/bridge/pairing_recovery.go:11-14 | the same once its attempts are used up |
| RecoveryControl.ConfigureGrants | internal/bridge/pairing_recovery.go:17-55 | switching on for another number, or resuming, gives a full budget for that number |
| RecoveryControl.RecoveryStarts | internal/bridge/pairing_recovery.go:68-102 | when the status calls for it and the budget allows it, an attempt is taken off the budget and begun, for its number |
| Stream.Hub.Subscribe | internal/bridge/hub.go:20-33 | a subscriber starts with empty channels |
| Stream.Hub.Notify | internal/bridge/hub.go:34-43 | every subscriber's slot is full afterwards and nothing else changed |
| Stream.Hub.Publish | internal/bridge/hub.go:44-55 | a live event reaches every subscriber with room; the others are dropped |
| Stream.Serve | internal/api/api.go:64-163 | a connection gets exactly the events after its cursor, in order, and one `live` marker, on the first read that finds nothing, when it has everything the store then holds; a cursor ahead of the store is refused |
| Stream.NoLostWakeup | internal/bridge/hub.go:20-43 | whenever a connection waits with events undelivered its slot is full or a writer has yet to notify |
| Stream.Server.Commit | internal/store/store.go:236-278 | a committed transaction is a step of that machine: as many events as it logged, and a notification owed if any |
| Stream.Server.Notify | internal/bridge/hub.go:34-43 | notifying the hub is its step |
| Stream.Server.Open | internal/api/api.go:64-78 | so is subscribing at a cursor the store has reached |
| Stream.Server.Read | internal/api/api.go:95-131 | and delivering the next events or going to wait |
| Stream.Server.Wake | internal/api/api.go:132-137 | and waking up |
| Stream.AsleepIsCaughtUp | internal/api/api.go:131-160 | a connection asleep with nobody about to notify has had everything |
| Replay.Events | internal/store/store.go:280-305 | a page of events is the stretch of the log after the cursor |
| Replay.Client.LoadAll | client/app.js:331-356 | the lists are replaced, each with its own cursor, and the replay rewinds to the earliest |
| Replay.Client.ApplyEvent | client/app.js:413-474 | an event is taken by its kind's list unless that list already had it |
| Replay.NextEventSyncs | client/app.js:413-474 | taking the next event keeps a list in step, loaded before or after it |
| Replay.Reload | client/app.js:331-356 | three reads at three moments leave the client in step with the log |
| Replay.CaughtUpIsPresent | internal/store/records.go:242-261 | a client that replayed everything holds exactly the server's records of each kind |
| Replay.Session | client/app.js:331-474 | the same while the server goes on throughout |
| Replay.SkippedJobsIff | client/app.js:339-354 | a list in step at one event is in step at a later one if and only if the last event between them about each record says what the list shows |
| Replay.NoJobEventNothingMissed | client/app.js:339-354 | which is so when no event between them is about a job |
| Replay.ReloadWithoutJobs | client/app.js:339-354 | after a load that failed for the jobs alone, they are in step with the replay's new cursor if and only if they missed nothing in the stretch it skipped |
| Replay.CaughtUpJobsIff | client/app.js:413-474 | replaying on to the end gives the server's jobs if and only if every job missed in that stretch changed again after it |
| Replay.CatchUp | client/app.js:413-474 | the same of the client that replays |
| Replay.SkippedJobExample | client/app.js:339-354 | a run: an import is queued, a client loads all but the jobs and replays to the end, and does not know the job |
| Inbox.PaddedOrder | internal/whatsapp/events.go:349 | twenty-digit keys sort as strings as they sort as numbers, for every 64-bit number |
| Inbox.Inbox.Ingest | internal/whatsapp/events.go:335-353 | an event is stored under a number never used before, up to the counter's wrap-around |
| Inbox.Inbox.Quarantine | internal/whatsapp/inbox.go:147-161 | an event is set aside and counted in one step |
| Inbox.Inbox.Settle | internal/whatsapp/events.go:367-411 | one event's turn: read, it is handed to the store and leaves only if every one of its snapshots was committed; poisoned, it is set aside; not ready, or met by a storage error, a refusal, a stop or a crash, it stays |
| Inbox.Inbox.Drain | internal/whatsapp/events.go:355-412 | the inbox is worked off in order, with arrivals, other writers and crashes anywhere: every event visited ends where its reading says, every other stays where it was, and a drain that ends early says why |
| Inbox.Conserved | internal/whatsapp/inbox.go:147-167 | waiting, set aside and gone add up to everything ingested, with the stored count right |
| Inbox.LeftMeansPersisted | internal/whatsapp/events.go:400-410 | for each snapshot of an event that is gone, its apply committed in the store before the event left, and its record is still there |
| Inbox.Inbox.Live | internal/whatsapp/events.go:335-412 | over every life of the inbox, with arrivals, drains, crashes and other writers, every event ever taken in waits as it came, is set aside as it came, or is gone with all its snapshots committed |
| Inbox.VisitedInOrder | internal/whatsapp/events.go:360-364 | the order of a drain is the order of ingestion |
| Reactions.React | internal/whatsapp/events.go:192-223 | the loops rebuild the list as specified |
| Reactions.ReactedReacts | internal/whatsapp/events.go:192-223 | an event sets or clears the sender's own reaction and nobody else's, whatever the list |
| Reactions.ListIsLastWriter | internal/whatsapp/events.go:192-223 | the list shows exactly each sender's last choice |
| Reactions.ListStaysProper | internal/whatsapp/events.go:192-223 | groups stay distinct and nonempty with each sender in at most one |
| Reactions.ReactingTwice | internal/whatsapp/events.go:192-223 | applying the last event again changes nothing |

## Left out

Modelling choices:

- JSON, protobuf, encryption and bbolt: identity on datatypes. Data that does not decode is a constructor, and the code's error paths for it are kept. Hashes of cursors and job ids are taken as injective.
- Clocks: every transaction gets its clock reading as an input and uses it throughout. The zero time is 0. The send order assumes records are created at times that never go back.
- Transaction ids and pairing tickets are inputs; freshness is stated where it matters.
- Integers are unbounded except the WhatsApp unread counter and the inbox sequence, which wrap as in the source.
- The order in which `ensureConversationPreviews` visits its map is taken to be key order; Go leaves it open.
- Ids are sequences of characters compared by code point, and the length limit on a conversation id counts characters.
- What the bridge applies is restricted where a property needs it and said there: conversations and messages only, under their own ids, with private data that never names an import cursor.

Weaker than the source in a stated way:

- Search.SearchPagesAgree: both scans read one committed state, while the API opens one read transaction per conversation; direction, text and page limits are not modelled.
- Replay.Session: the API's `read_only` flag, its WhatsApp list filter and the client's message threads are not modelled.
- Stream.Serve: events are sent as stored, without the API's rewriting of them; write deadlines are not modelled, and a connection ends at the last 64-bit event number, which no store reaches.
- Stream.NoLostWakeup: a writer that commits and never notifies is not modelled; in the source every apply that changed something is followed by its notification (internal/bridge/bridge.go:160-170, internal/bridge/service.go:474-484), and the keep-alive timer makes a connection read again in any case.
- Stream.Server.Read: the store holds no more than 2^64 - 1 events; a connection the hub drops for being slow is one that closes.
- Replay.ReloadWithoutJobs: its reads come after everything the client was already sent, as requests made later do.
- HistoryWorker.HistoryOne: a round uses one clock reading.
- Recovery.RecoverPairing: its three regions run back to back here; other steps between them are covered by Recovery.BudgetHolds.
- Pairing.OneOutcome: it speaks of one run of the process; after a restart generations start over. The placeholder generation reported after an interrupted pairing is not modelled.
- Inbox.Inbox.Drain: what an event decodes to is an input, and so is how its decoding fails; an inbox that has taken in 2^64 - 1 events, when the numbers wrap around, is left out.

Not modelled:

- The libgm and whatsmeow clients, key stores, contacts, media and uploads, and the request validation that depends on them.
- `processPairing` once the service is shutting down, where the marker is cleared without the mutation lock.
- Status text, connection events, outage notices, sync back-off and reconciliation.
- WhatsApp receipts and the message branches other than reactions (edits, revocations, media): what they read depends on whatsmeow's identities and payloads. `Inbox` takes what an event decodes to as an input and covers what becomes of it from there; of the decoding only the reaction list is modelled.
- The store's transactions on data nothing here reads: uploads (`SaveUpload`), media (`PutMedia`), the address book (`SaveContacts`), the pairing agent's digest (`SavePairingAgentDigest`), the network's keys (`NetworkPut`) and push subscriptions; and `Claim`, which only tests call.
- HTTP routing, authorization, push, the desktop shell, command line and everything the client renders.
