# nostrherd, modelled in Dafny

nostrherd hosts chat bots on a relay. A trigger message becomes a *turn* in a queue per bot and
channel; the host asks an *occupant* (an agent behind the Kelpie message bus) to answer it, and
publishes the answer, and progress posts before it, as events on the relay. The host keeps
everything in a database and may stop at any write.

This project models

- the durable protocol: the tables and their statements (`HostStore`), the publisher and the
  progress relay with its background worker (`RelayPublisher`, `ProgressRelay`), progress posts
  (`ProgressPolicy`, `ProgressTheory`, `ProgressSteps`, `Progress`), outbound attempts
  (`OutboxTheory`, `Outbox`, `OutboxTells`, `Delivery`, `OutboxRetry`), the queue of turns
  (`TurnQueueTheory`, `TurnQueue`, `TurnIngest`), and the whole host over any sequence of inputs
  (`Host`, `RunTheorems`);
- the text algorithms around it: the outbound stamp (`Stamping`), Markdown masking (`Utf8`,
  `MarkdownMask`), mentions (`Mentions`), the managed blocks of `startup.md` (`StartupBlocks`),
  session names (`SessionNames`), ask contexts (`AskContext`) and thread roots (`ThreadRoots`).

How the protocol is modelled. The tables are fields of the class `Repository`; its methods are the
statements. A write reports success or failure, and a failed write may or may not be durable, so a
handler that stops there (`Aborted`, `Interrupted`, or `ok == false`) leaves the store as a crash at
that write would; every contract holds of that store too. Relay verdicts, Kelpie answers, output
screening and clocks are left open: no order between two readings of the clock is assumed. Sends
and what happens to progress posts are logged in specification-only sequences. Each part has an
invariant (`ProgressGood`, `OutboxGood`, `QueueGood`) and a transitive relation that says how rows
may change (`ProgressEvolves`, `OutboxEvolves`, `QueueEvolves`); one lemma per kind of step keeps
both, and the methods call those lemmas around their writes. A specification-only counter
(`Repository.failures`) counts failed writes and lost cancels; a handler that reports a failure has
raised it. `Server.Serve` runs any sequence of inputs, and `Host.Serves` says what each input does
between the states around it; the lemmas of `RunTheorems` speak about such runs, or about any two
states of one.

Statements that do not hold of the code as it is, each with a witness and its condition:

- A cancel can leave a progress post standing, in three ways. A create that was not accepted may
  have landed; its redelivery is refused or rejected and the row ends, while the turn can still be
  cancelled. A refused final ends the row, and the host stops before it fails the turn. The host
  stops between a cancel and the write that owes the delete, and the next tick ends the row.
  `RunTheorems.ForgottenPost` reaches each by steps; `TurnIngest.EndProgress` and
  `Progress.DeleteProgressPost` state when exactly a cancel does not cover the post (`LetGo`),
  `Progress.CreatePost` when exactly a redelivery lets it go; `RunTheorems.LetGoBy` says that there
  is no other way for a turn that can be cancelled, and `RunTheorems.CancelledPostsCovered` what
  holds while nothing fails.
- An abandoned answer's turn is not open, unless the host stops between the two writes of
  `abandon_outbound`: then no tick takes it up again, and only a repeated final closes the turn.
  `OutboxRetry.AbandonOutbound` states the exact condition, `RunTheorems.StrandedAnswer` the state,
  `RunTheorems.StrandedByFailure` that there is no other way, and
  `RunTheorems.FinalUnstrandsForGood` the way out.
- The in-flight marker is exact except after a failed Kelpie cancel of an abandoned turn (and
  after a failed write): `TurnIngest.AbandonUnclaimed` states both directions,
  `RunTheorems.MarkersInFlight` what holds of runs without either.
- The context cursor can move back, and then an event can appear in two contexts:
  `AskContext.CursorMovesOn` and `AskContext.RepeatsExactly` state when exactly,
  `AskContext.EventTwice` gives a run.

## Model

| member | source | states |
|---|---|---|
| `Stamping.StampIdempotent` | crates/domain/src/lib.rs:72-81 | stamping an already stamped body changes nothing, for every body and bot, so a retry of a stored body rebuilds the same event |
| `Stamping.StampIsTight` | crates/domain/src/lib.rs:66-81 | a stamped body starts with the stamp and has no white space at either end |
| `Stamping.TrimFixedPoint` | crates/domain/src/lib.rs:72-74 | a text is its own trim exactly when it neither starts nor ends in white space |
| `HostStore.WithStateStep` | crates/nostrherd/src/sqlite.rs:885-908 | ending a turn keeps the table well formed: unique asks, at most one live turn per event, the open turn of a session before its queued ones |
| `HostStore.WithClaimStep` | crates/nostrherd/src/lib.rs:1760-1772 | claiming or releasing touches only an open turn and nothing but its claim |
| `HostStore.CancelStep` | crates/nostrherd/src/sqlite.rs:982-1026 | the unconditional update cancels at most one row, the row it returns is that one, and no live turn of the event is left |
| `HostStore.EnqueueStep` | crates/nostrherd/src/sqlite.rs:1600-1633 | queuing work of an event without live work keeps the table well formed |
| `HostStore.OpenStep` | crates/nostrherd/src/lib.rs:1741-1750 | opening binds the ask to the lowest queued row of an idle session and keeps the table well formed |
| `HostStore.OfAskStable` | crates/nostrherd/src/sqlite.rs:1075-1088 | an ask id stays bound to the same row over any number of steps |
| `HostStore.OfAskUnique` | crates/nostrherd/src/sqlite.rs:1075-1088 | an ask id names one row |
| `HostStore.WithDispatchFailureStep` | crates/nostrherd/src/lib.rs:1781-1793 | the first failure stamp of a queued turn is kept |
| `HostStore.WithQueuedAsStep` | crates/nostrherd/src/sqlite.rs:966-980 | only a queued turn is failed or cancelled by event, and nothing else changes |
| `HostStore.Repository.SetTurnState` | crates/nostrherd/src/sqlite.rs:885-908 | the state changes only along a legal transition and never to cancelled while claimed; a failed write leaves either table |
| `HostStore.Repository.SetClaim` | crates/nostrherd/src/sqlite.rs:910-926 | reports whether the claim changed: only on an open turn that is not so claimed yet |
| `HostStore.Repository.SaveOutboundAttempt` | crates/nostrherd/src/sqlite.rs:1325-1379 | the stored root, accepted id, prepared id, timestamp and abandonment win over the new ones; the rest is overwritten |
| `HostStore.Repository.MarkOutboundAccepted` | crates/nostrherd/src/sqlite.rs:1412-1424 | the accepted id is written when none or the same is stored, and reported |
| `HostStore.Repository.SaveProgressPost` | crates/nostrherd/src/sqlite.rs:1436-1480 | identity, create body, prepared id, timestamp and post id are written once |
| `HostStore.Repository.EnqueueUnprocessedTurn` | crates/nostrherd/src/sqlite.rs:750-772 | marker and turn are stored together; a processed event gets no second turn |
| `HostStore.Repository.OpenNextTurn` | crates/nostrherd/src/sqlite.rs:829-883 | opens the oldest queued turn iff the session has no open turn and the ask id is unused |
| `HostStore.Repository.RecordDispatchFailure` | crates/nostrherd/src/sqlite.rs:945-964 | returns the first failure stamp of the queued turn |
| `HostStore.Repository.CancelUnclaimedTurn` | crates/nostrherd/src/sqlite.rs:982-1026 | cancels every queued or open unclaimed row of the event and returns the latest |
| `HostStore.Repository.ReplaceUnclaimedTurn` | crates/nostrherd/src/sqlite.rs:1028-1073 | cancel and re-queue are one transaction; nothing happens without an unclaimed turn |
| `RelayPublisher.Publisher.Prepare` | crates/nostrherd/src/outbox.rs:456-486 | the id is a function of payload and recorded timestamp; a recorded id that differs is the only mismatch |
| `RelayPublisher.Publisher.Publish` | crates/nostrherd/src/outbox.rs:488-496 | every send is logged with the turn, attempt and progress row stored at that moment |
| `ProgressPolicy.StepMeansElapsed` | crates/domain/src/progress.rs:78-93 | create exactly after the hold, edit exactly after the interval, for all clocks, saturation included |
| `ProgressPolicy.CapProgressBody` | crates/domain/src/progress.rs:35-51 | the backwards search ends at the longest prefix of whole characters that fits with the ellipsis |
| `ProgressPolicy.CappedFits` | crates/domain/src/progress.rs:16-51 | a capped body is never empty, fits in 64 KiB, and is the trimmed body, or a prefix of it plus the ellipsis exactly when it was too long |
| `ProgressRelay.Relay.Edit` | crates/nostrherd/src/progress.rs:271-299 | an edit of an ask that is in flight is not issued again; a stopped worker leaves nothing in flight |
| `ProgressRelay.Relay.Delete` | crates/nostrherd/src/progress.rs:301-325 | the same for deletes |
| `ProgressRelay.Relay.WorkerStep` | crates/nostrherd/src/progress.rs:215-263 | the worker runs the oldest command and reports it; a completion is not before its issue |
| `ProgressRelay.Relay.DrainCompletions` | crates/nostrherd/src/progress.rs:327-347 | all completions are taken and exactly their operations may fly again |
| `ProgressRelay.Relay.Restart` | crates/nostrherd/src/progress.rs:211-269 | a restart loses queue, completions and the active set, not what was sent |
| `ProgressSteps.WorkerLemma` | crates/nostrherd/src/progress.rs:215-263 | any worker step keeps the invariant of posts, feed and operations in flight |
| `ProgressSteps.IssueStep` | crates/nostrherd/src/progress.rs:820-834 | an issued edit carries the newest recorded body and is ahead of everything of its ask that ran |
| `ProgressSteps.FixStep` | crates/nostrherd/src/progress.rs:752-774 | the create is fixed once, with the newest body, before it is sent |
| `ProgressSteps.RecordStep` | crates/nostrherd/src/progress.rs:413-419 | a recorded body becomes the newest of the feed; no accepted edit is made stale silently |
| `ProgressSteps.ForgetStep` | crates/nostrherd/src/progress.rs:211-269 | losing operations in flight keeps the invariant |
| `ProgressSteps.LastEditAt` | crates/nostrherd/src/progress.rs:606-636 | the completion being applied is of the last edit that ran |
| `ProgressSteps.NoEditsYet` | crates/nostrherd/src/progress.rs:738-774 | a post without an accepted create was never edited |
| `Progress.RecordProgress` | crates/nostrherd/src/progress.rs:385-420 | a body becomes the pending body of the row exactly for an open turn with a publish target, without a final, not ended and under the cap; otherwise the row is left or only drops what is pending at the cap |
| `Progress.DiscardPending` | crates/nostrherd/src/progress.rs:486-499 | a final drops what is pending and ends the row |
| `Progress.DeleteProgressPost` | crates/nostrherd/src/progress.rs:509-536 | the row is ended and its delete owed, or settled, exactly unless the row had already ended without a delete |
| `Progress.SendDelete` | crates/nostrherd/src/progress.rs:538-576 | the delete names the one event of the post; the row stops owing it only when it was accepted or refused for good |
| `Progress.CreatePost` | crates/nostrherd/src/progress.rs:739-805 | at most one send, under the stored id, after that id was stored; accepted, refused and undecided sends leave the row as the source does |
| `Progress.CreateRepeats` | crates/nostrherd/src/progress.rs:752-774 | a redelivered create is the recorded event again, so the mismatch branch is not reached |
| `Progress.EditPost` | crates/nostrherd/src/progress.rs:807-850 | the edit carries the stamped pending body; a failed edit costs neither count nor pending body |
| `Progress.FlushProgress` | crates/nostrherd/src/progress.rs:690-735 | one action per row: delete if owed, nothing if ended, silence after a final or a closed turn, redeliver a fixed create, else what the clock says; the row ends only when the turn closed |
| `Progress.FlushTick` | crates/nostrherd/src/actor.rs:770-798 | every pending row of the bot is flushed once: every row whose create is due is tried, every delete that is owed and every edit that is due is handed to the relay, with the row as its outcome leaves it, and only creates are sent directly |
| `Progress.ApplyCompletion` | crates/nostrherd/src/progress.rs:605-684 | what an accepted, refused or failed edit or delete does to the row |
| `Progress.AppliedPostGood` | crates/nostrherd/src/progress.rs:605-643 | an applied edit keeps the row good: counted once, within the cap, pending cleared only if the accepted content is the pending body |
| `Progress.ApplyRelayCompletions` | crates/nostrherd/src/progress.rs:599-688 | every reported completion is applied, or the rest is dropped at a failed write, and the invariant holds either way |
| `Progress.RunWorker` | crates/nostrherd/src/progress.rs:215-263 | any number of worker steps keeps the invariant |
| `OutboxTheory.AttemptStep` | crates/nostrherd/src/sqlite.rs:1325-1379 | a row that is inserted or moves forward keeps the invariant of attempts, sends and posted turns |
| `OutboxTheory.SendStep` | crates/nostrherd/src/outbox.rs:824-851 | a send of an undecided, prepared attempt keeps the invariant |
| `OutboxTheory.TurnStep` | crates/nostrherd/src/outbox.rs:1430-1448 | turns may move forward under the attempts; a turn is posted only with its accepted answer |
| `Outbox.SaveAttempt` | crates/nostrherd/src/outbox.rs:1159-1161 | an attempt is stored or, at a failed write, not; the invariants hold in both stores |
| `Outbox.StampedGood` | crates/nostrherd/src/outbox.rs:824-840 | a stored prepared attempt is its own publishable form, so the mismatch branch is not reached |
| `Outbox.PreparedGood` | crates/nostrherd/src/outbox.rs:836-841 | the row with the prepared id is stored before anything is sent |
| `Outbox.RecordAndSend` | crates/nostrherd/src/outbox.rs:824-851 | prepare, record, send: at most one send, of the stored attempt as its bot publishes it, under its recorded id; the outcome matches the verdict |
| `Outbox.CloseTurn` | crates/nostrherd/src/outbox.rs:1250-1268 | the turn is closed, then the marker of its event is cleared, and markers stay exact |
| `Outbox.MarkPosted` | crates/nostrherd/src/outbox.rs:1430-1448 | pending progress is dropped, the turn is posted, the marker cleared |
| `Outbox.FinalPayload` | crates/nostrherd/src/outbox.rs:1140-1158 | a prepared final is sent again unchanged; an unprepared one is the newest body, stamped, in reply to the trigger and in its thread |
| `Outbox.FinalAttemptGood` | crates/nostrherd/src/outbox.rs:1140-1161 | the attempt a final is stored as keeps what was prepared, accepted or abandoned |
| `Outbox.ClaimAndSend` | crates/nostrherd/src/outbox.rs:1201-1213 | a send needs the turn open and claimed; a claim left by a crash does not block; a cancel that won leaves nothing to send |
| `Outbox.CompleteOutbound` | crates/nostrherd/src/outbox.rs:1118-1247 | acknowledged only with the turn closed; accepted means posted, refused means failed, undecided means still open, undecided attempt and not acknowledged |
| `OutboxTells.SendTell` | crates/nostrherd/src/outbox.rs:1377-1418 | a tell is acknowledged only when its attempt is accepted or abandoned |
| `OutboxTells.TellPayload` | crates/nostrherd/src/outbox.rs:745-760 | a prepared tell is sent again unchanged; an unprepared one is the newest body, stamped, top-level in its channel |
| `OutboxTells.PublishInitiated` | crates/nostrherd/src/outbox.rs:737-805 | a decided tell is acknowledged without a send; otherwise one send, recorded first |
| `Delivery.HandleDelivery` | crates/nostrherd/src/outbox.rs:945-1066 | every kind of delivery does what the decision says and nothing else, also at a failed write |
| `Delivery.AckIsLast` | crates/nostrherd/src/outbox.rs:624-653 | a non-empty final for a known ask is acknowledged only with its turn closed, held exactly while queued, and sent only while open and not refused |
| `Delivery.EmptyFinalStaysOwed` | crates/nostrherd/src/outbox.rs:638-644 | an empty final changes nothing and is acknowledged exactly when the answer was posted |
| `Delivery.RefuseFinal` | crates/nostrherd/src/outbox.rs:1018-1050 | a refused final closes its turn as failed, without a send, and silences progress |
| `OutboxRetry.RetryUndispatched` | crates/nostrherd/src/outbox.rs:1322-1375 | the retry is counted before the send and uses one up; at the bound the attempt is abandoned and its turn is not open; a cancel won between ticks means no send |
| `OutboxRetry.AbandonOutbound` | crates/nostrherd/src/outbox.rs:1282-1311 | the attempt is stamped, then its open turn is failed and the marker cleared; the answer is left with an open turn exactly when the first of the two writes is durable and the second is not |
| `OutboxRetry.OutboundTick` | crates/nostrherd/src/actor.rs:698-758 | each due attempt of the bot is sent at most once per tick, nothing else is sent, every due attempt uses up a retry, and an answer is stranded only at its last chance and only by a failed write |
| `OutboxRetry.RetriesOnlyShrink` | crates/nostrherd/src/outbox.rs:89-92 | no path gives an attempt back a retry or reopens it |
| `OutboxRetry.StaysOver` | crates/nostrherd/src/outbox.rs:1282-1311 | the turn of an abandoned answer does not reopen |
| `TurnQueueTheory.FirstInFirstOut` | crates/nostrherd/src/actor.rs:1222-1240 | per session: at most one open turn, before every queued one; turns open in row order and none is passed over |
| `TurnQueueTheory.ReplayProof` | crates/nostrherd/src/actor.rs:399-416 | an event has no turn, or one plus one per replacement, at most one of them live |
| `TurnQueueTheory.TriggerQueueStep` | crates/nostrherd/src/sqlite.rs:750-772 | a first-seen trigger is marked and queued at once and keeps the invariant |
| `TurnQueueTheory.ReplaceQueueStep` | crates/nostrherd/src/sqlite.rs:1028-1073 | a replacement keeps the invariant and is counted |
| `TurnQueueTheory.OpenQueueStep` | crates/nostrherd/src/sqlite.rs:829-883 | opening keeps the order of openings |
| `TurnQueueTheory.NoticeQueueStep` | crates/nostrherd/src/actor.rs:946-959 | a failure notice is for an event whose work is over |
| `TurnQueueTheory.CountPositive` | crates/nostrherd/src/actor.rs:399-416 | an event has turns exactly when a row names it |
| `TurnQueue.AskOldestQueued` | crates/nostrherd/src/actor.rs:1242-1348 | the oldest queued turn opens under the receipt's ask, or is cancelled without a body, or nothing changes |
| `TurnQueue.ResumeQueued` | crates/nostrherd/src/actor.rs:857-915 | at most one turn opens; a turn fails here only after the whole dispatch bound; answers are left alone |
| `TurnQueue.FailUndispatched` | crates/nostrherd/src/actor.rs:922-961 | the queued turn fails, its marker is cleared, and its requester gets one notice, never rewritten |
| `TurnQueue.CloseQueuedUnmarks` | crates/nostrherd/src/actor.rs:885-891 | closing the one live turn of an event and clearing its marker keeps markers exact |
| `TurnIngest.HandleTrigger` | crates/nostrherd/src/actor.rs:364-422 | a new trigger adds one queued turn at the end and is started exactly when it is next; a processed one adds none |
| `TurnIngest.HandleWatchFire` | crates/nostrherd/src/actor.rs:429-450 | a newly recorded wake adds one turn without a publish target; a recorded one adds none |
| `TurnIngest.AbandonUnclaimed` | crates/nostrherd/src/actor.rs:1071-1105 | the unclaimed turn is cancelled and its progress ended even if the occupant could not be told; then, and only then, the marker is left behind |
| `TurnIngest.HandleEdit` | crates/nostrherd/src/actor.rs:963-1069 | an edit without request or authorized requester abandons; otherwise the turn is cancelled and queued again under the same event, with the marker up throughout |
| `TurnIngest.EndProgress` | crates/nostrherd/src/actor.rs:1108-1116 | after the cancel the post is covered by a delete exactly unless the row had been let go before |
| `Host.Server.Handle` | crates/nostrherd/src/main.rs:800-910 | every input keeps every invariant and only moves rows forward, for any clock; undisturbed it also keeps markers exact, cancelled posts covered and answers unstranded; which inputs may strand an answer or give a post up |
| `Host.Server.Serve` | crates/nostrherd/src/main.rs:985-1040 | over any sequence of inputs, crashes included, all states are good and each input does that between the states around it |
| `Host.WhyLetGo` | crates/nostrherd/src/progress.rs:784-800 | the row of an open, unreserved turn ends without a delete only when its create was refused or rejected, or by a refused final |
| `Host.EndsTidy` | crates/nostrherd/src/actor.rs:1071-1105 | an edit or delete that completes leaves no cancelled ask with a forgotten post, a dropped create apart |
| `RunTheorems.OneEvent` | crates/nostrherd/src/outbox.rs:1162-1219 | all sends for one answer, tell, notice or progress create carry one event id and one payload, recorded before each send |
| `RunTheorems.PostedMeansAccepted` | crates/nostrherd/src/outbox.rs:1214-1247 | a posted turn has an accepted id equal to its prepared id, and the relay accepted a send under it |
| `RunTheorems.FinalsReserved` | crates/nostrherd/src/outbox.rs:1201-1213 | every final was sent while its turn was open and claimed; none is sent once the turn is over, cancelled ones included |
| `RunTheorems.DecidedForGood` | crates/nostrherd/src/outbox.rs:1181-1186 | an accepted or abandoned attempt is never sent again |
| `RunTheorems.RetrySpan` | crates/nostrherd/src/outbox.rs:149-154 | retries are at least 10 seconds apart, whatever the clock did in between, and at most 30 |
| `RunTheorems.StaysTidyThroughout` | crates/nostrherd/src/main.rs:985-1040 | a run without a failed write or a lost cancel stays tidy: markers, abandoned answers, refused finals and cancelled posts |
| `RunTheorems.MarkersInFlight` | crates/nostrherd/src/actor.rs:399-416 | on such a run the in-flight marker is up exactly on the trigger events with queued or open work |
| `RunTheorems.CancelledPostsCovered` | crates/nostrherd/src/progress.rs:509-536 | on such a run the post of every cancelled ask is deleted, or its delete is owed under the one id, unless its create was refused or rejected |
| `RunTheorems.AcceptedStaysReserved` | crates/nostrherd/src/outbox.rs:1214-1247 | once an accepted answer is stored its turn stays reserved until it is posted, so no cancel can win any more |
| `RunTheorems.TicksSpend` | crates/nostrherd/src/actor.rs:698-758 | every completed tick at which the attempt was due costs it one of its 31 lives, and nothing gives one back |
| `RunTheorems.RetriesEnd` | crates/nostrherd/src/outbox.rs:1336-1374 | no attempt lives through more than 31 completed due ticks; an answer that was never accepted is then abandoned, and its turn is not open unless a tick failed at its last chance |
| `RunTheorems.StrandedByFailure` | crates/nostrherd/src/outbox.rs:1296-1305 | an abandoned answer of an open turn is there only because a tick failed when it was about to give the answer up |
| `RunTheorems.FinalUnstrandsForGood` | crates/nostrherd/src/outbox.rs:1181-1186 | a later final for that ask that is handled to the end leaves its turn closed for good |
| `RunTheorems.StrandedAnswer` | crates/nostrherd/src/outbox.rs:1271-1311 | the state between the two writes: good, abandoned, open, and not due at any tick |
| `RunTheorems.ShownInOrder` | crates/nostrherd/src/progress.rs:807-850 | create and edits show recorded bodies in the order of recording, each the newest when chosen; an older body never follows a newer one |
| `RunTheorems.SettledShowsNewest` | crates/nostrherd/src/progress.rs:690-735 | with nothing pending, nothing failed and nothing ended, readers see the newest body |
| `RunTheorems.EditBudget` | crates/domain/src/progress.rs:9-13 | between any two states at most 20 edits are counted, each at least 30 seconds after the send before it |
| `RunTheorems.EditsTakeTime` | crates/nostrherd/src/progress.rs:769-773 | the last send is at or after the time the create was accepted plus 30 seconds for every counted edit |
| `RunTheorems.SilentForGood` | crates/nostrherd/src/progress.rs:444-446 | after a final, the end of the turn or the end of the row, nothing of the ask is recorded, created or edited, and ended is never cleared |
| `RunTheorems.DeleteStaysOwed` | crates/nostrherd/src/progress.rs:645-674 | an owed delete stays owed for the same event until accepted or refused for good |
| `RunTheorems.NoEditAfterDelete` | crates/nostrherd/src/progress.rs:181-200 | the worker runs no edit of an ask after a delete of it |
| `RunTheorems.CancelFoundOnce` | crates/nostrherd/src/actor.rs:1089-1098 | a repeated ingest finds nothing to cancel, so a delete lost at a crash is not repeated |
| `RunTheorems.LetGoBy` | crates/nostrherd/src/progress.rs:486-499 | over any run the post of an open, unreserved turn is let go only by a tick whose create was refused or rejected, or by a refused final that failed before it closed the turn |
| `RunTheorems.ForgottenPost` | crates/nostrherd/src/outbox.rs:1036-1042 | the three ways to let a created post go, each by steps of the host from an empty table, the first without any failure |
| `Utf8.BlankedValid` | crates/nostrherd/src/relay.rs:250-262 | blanking whole characters keeps a text valid UTF-8 |
| `Utf8.TailFollowsNonAscii` | crates/nostrherd/src/relay.rs:176-263 | in valid UTF-8 a tail byte follows a non-ASCII byte |
| `MarkdownMask.MaskMarkdownCode` | crates/nostrherd/src/relay.rs:176-263 | same length; each byte is kept, or is code and becomes a space, never a line break; the result is valid UTF-8, so the fallback is not taken |
| `MarkdownMask.MaskLines` | crates/nostrherd/src/relay.rs:177-221 | the in-place line scan computes the line-by-line definition of fenced and indented code |
| `MarkdownMask.MaskSpans` | crates/nostrherd/src/relay.rs:223-248 | the in-place span scan computes the left-to-right definition of inline spans on top of it |
| `MarkdownMask.FindCloser` | crates/nostrherd/src/relay.rs:231-244 | the closing run is the next one of the same length outside code lines |
| `MarkdownMask.CodeIsCode` | crates/nostrherd/src/relay.rs:176-263 | what is masked lies in a code line or between an opener and the next run of its length; every code line is masked |
| `MarkdownMask.CodeAligned` | crates/nostrherd/src/relay.rs:176-263 | every tail byte is masked exactly when its predecessor is |
| `StartupBlocks.UpsertPlaces` | crates/nostrherd/src/snapshot.rs:266-313 | a successful upsert leaves exactly one begin and one end marker, the new body between them, and the text outside byte for byte |
| `StartupBlocks.UpsertSucceeds` | crates/nostrherd/src/snapshot.rs:272-300 | an upsert succeeds exactly when the pair is absent, or present once, in order, with no marker inside |
| `StartupBlocks.UpsertAgain` | crates/nostrherd/src/snapshot.rs:279-298 | a second upsert is the identity |
| `StartupBlocks.OtherBlockKept` | crates/nostrherd/src/snapshot.rs:225-239 | upserting one block leaves the other intact |
| `StartupBlocks.PointStartupSettles` | crates/nostrherd/src/snapshot.rs:225-239 | after a run both blocks stand once with the host's text, and a second run changes nothing |
| `StartupBlocks.CountConcat` | crates/nostrherd/src/snapshot.rs:272-274 | no marker lies across a splice point, so counts add up |
| `StartupBlocks.MatchesCount` | crates/nostrherd/src/snapshot.rs:272-273 | markers do not overlap, so counting matches counts all occurrences |
| `StartupBlocks.TokenCompletesNothing` | crates/nostrherd/src/snapshot.rs:188-222 | a configured one-token session name cannot complete a marker in the contract |
| `SessionNames.FromBotAndChannel` | crates/domain/src/lib.rs:210-250 | the search ends with the first free candidate: free, at most 32 bytes, a bot-style name with the bot id and a hyphen in front |
| `SessionNames.CandidatesGood` | crates/domain/src/lib.rs:329-352 | every candidate is such a name, and there is one unless the bot id has 31 bytes or more |
| `SessionNames.Slugify` | crates/domain/src/lib.rs:288-309 | the loop computes the slug of the title |
| `SessionNames.SlugShape` | crates/domain/src/lib.rs:288-309 | a slug is never empty, lowercase letters and digits with single hyphens between |
| `SessionNames.SlugKeepsLetters` | crates/domain/src/lib.rs:288-309 | a slug keeps every ASCII letter and digit of the title, in order |
| `SessionNames.StableIdShape` | crates/domain/src/lib.rs:221-231 | the stable id is a non-empty run of lowercase hex digits |
| `SessionNames.SessionTable.Ensure` | crates/nostrherd/src/actor.rs:1657-1696 | stored names are pairwise distinct and never change; a place stays unnamed only when every candidate is taken |
| `SessionNames.NameIsFileStem` | crates/nostrherd/src/snapshot.rs:178-186 | every session name is an accepted snapshot file stem |
| `AskContext.CapContextLines` | crates/nostrherd/src/ask_body.rs:133-151 | the longest suffix of at most 32 lines and 8192 bytes, or the last line cut; truncated exactly when something is missing |
| `AskContext.NextCursor` | crates/nostrherd/src/ask_body.rs:157-175 | the loop computes the latest of trigger and unread events |
| `AskContext.LatestIsMaximum` | crates/nostrherd/src/ask_body.rs:157-175 | the cursor is at or above the trigger and every unread event, and is one of them |
| `AskContext.CursorMovesOn` | crates/nostrherd/src/ask_body.rs:115-131 | the cursor does not move back exactly when the trigger is not behind it or something is unread |
| `AskContext.NoEventTwice` | crates/nostrherd/src/ask_body.rs:115-131 | along a run in which that holds, no event appears in two contexts |
| `AskContext.RepeatsExactly` | crates/nostrherd/src/ask_body.rs:115-131 | after any asks, a next ask can show an event again exactly when the cursor is behind one that was shown |
| `AskContext.OrderlyKeepsUp` | crates/nostrherd/src/ask_body.rs:157-175 | in a run in which the cursor does not move back it is never behind what was shown |
| `AskContext.EventTwice` | crates/nostrherd/src/ask_body.rs:157-175 | with three triggers queued the cursor can move back and an event appears twice |
| `AskContext.AskSession.Compose` | crates/nostrherd/src/actor.rs:1345-1348 | the stored cursor moves only when the ask was delivered |
| `ThreadRoots.ReplyThreadRoot` | crates/domain/src/buzz.rs:140-171 | the loop computes: last root marker and last reply marker, or else the first unmarked tag, never the trigger itself |
| `ThreadRoots.RootIsAnother` | crates/domain/src/buzz.rs:163-171 | a resolved root is an event id other than the trigger |
| `ThreadRoots.MarkedOfMessage` | crates/domain/src/buzz.rs:179-204 | reading back the tags of a published reply gives the trigger and the root it was written with |
| `ThreadRoots.RootOfChain` | crates/domain/src/buzz.rs:140-204 | along any chain of replies with distinct ids, the root of each is the first message |
| `ThreadRoots.ParsedIsId` | crates/domain/src/lib.rs:439-445 | parsing yields 64 lowercase hex digits and leaves a stored id alone |
| `Mentions.BuildTable` | crates/nostrherd/src/relay.rs:112-122 | the table maps each alias, in lower case, to exactly the keys of the participants that have it |
| `Mentions.FindNamed` | crates/nostrherd/src/relay.rs:123-143 | whatever the order of aliases of equal length, the result is the one holder of the longest matching alias, or nobody |
| `Mentions.SharedNamesNobody` | crates/nostrherd/src/relay.rs:139-141 | an alias that two participants share names nobody, with no fallback to a shorter alias |
| `Mentions.NamedAlone` | crates/nostrherd/src/relay.rs:131-141 | whoever is named has the longest matching alias alone |
| `Mentions.MentionedPubkeys` | crates/nostrherd/src/relay.rs:110-143 | mentions are looked up in the masked text, in order |
| `Mentions.MaskedNamesNobody` | crates/nostrherd/src/relay.rs:111-129 | a key is recorded exactly when some at sign outside code names it |
| `Mentions.ResolvedMentions` | crates/nostrherd/src/outbox.rs:565-581 | the requester first, then whom the body names, each once, at most 50 |
| `Mentions.PublishedAsResolved` | crates/domain/src/buzz.rs:59-81 | a resolved list is published exactly, through join, split, trim and the second deduplication |
| `Mentions.PublishedMentions` | crates/nostrherd/src/outbox.rs:565-595 | the published keys are the requester first, then participants whom an at sign outside code names, each once, at most 50, and all of these when they are fewer |

## Left out

- Reads of the database never fail; only writes do. Writes of the session row, of watches and of
  the index are modelled as far as the queue needs them.
- The background worker takes its steps between rows of a progress tick and between inputs. It
  shares only the command queue, the completions and the active set with the host, and no handler
  reads those again after it handed an operation over, so other interleavings commute with these.
- Attempt rows migrated from versions that stored an accepted id without a prepared id; rows
  that were dispatched without a prepared id are modelled (`Legacy`).
- Event ids, ask ids, tell ids and the ids of host wakes are taken not to collide, and a tell id
  belongs to one bot; the id of an event is an arbitrary function of payload and timestamp.
- TurnQueue.AskOldestQueued: does not model the body, the pane and the recovery of a gone occupant,
  nor that Kelpie answers the same idempotency key with the same ask; a receipt names any ask.
- OutboxRetry.OutboundTick: the order of the attempts is left open instead of sorted by id.
- AskContext.CapContextLines: lines are bytes; the source cuts a string and needs a character
  boundary at that byte.
- Mentions.FindNamed: ASCII case folding and ASCII white space only; labels that only Unicode
  folding would merge are not modelled.
- SessionNames.FromBotAndChannel: the test for an empty suffix and for a candidate that does not
  fit cannot succeed there and are not written out.
- StartupBlocks.PointStartupSettles: the texts of the two blocks are parameters without markers;
  reading and writing the file is not modelled.
- Watch grammar, matching and cooldown; `handle_watch_fire` is modelled from a matched source event.
- Relay subscription, effective authors and trigger matching; the inputs are what they produce.
- Audience fetching, snapshots, prose templates, output screening rules and configuration.
- Inbox acknowledgement waiting, sockets, processes and the command line.
- Operator notices and occupant feedback; of notices only their pacing stamp is kept.
