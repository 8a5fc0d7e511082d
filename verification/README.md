# v-note: a verified model of the page channel and its neighbours

This project models, in Dafny, the parts of the note-taking service whose
correctness depends on many functions at once, and proves what they promise.

1. **The page channel.** One page's rows (batches, two tombstone tables,
   revision, paper, thumbnail jobs), the message handlers, the bounded
   broadcast channel, the edit lease and tickets, and the viewer that merges
   replays, live batches and tombstones around a cursor. `Store`, `History`,
   `Hub`, `Leases`, `Dispatch`, `Socket`, `Editing`, `Viewer`, `Client` and
   `Replay` take the parts one by one; `Convergence`, `Pending`, `Orders`,
   `PageSystem`, `AnyOrder` and `Cursor` put them together as one state machine
   of small steps: commit, publish, forward, subscribe, the replay's separate
   reads, delivery, drop and reconnect. `AnyOrder.ViewerConvergesIff` says, for
   every run of it, exactly when a viewer is brought to the stored page.
   `Together` runs the sessions of `Editing` on that machine, and `Serving` shows
   that the loop of `Socket` runs on both: `Serving.ServedViewerShowsThePage` is
   about the frames that loop really sends. `Losses` has the exact conditions and
   the runs for what the hypotheses below exclude.
2. **Revision history.** Runs of transactions, renders and cleanups: snapshots
   that never change, the head thumbnail row, retention.
3. **The telemetry exporter.** `Outbox`, `Transitions`, `Exporter` and
   `ExportRuns`: the queue, the configuration lifecycle, the export policy, and
   whole runs of the suspended export interleaved with everything else that
   touches its state.
4. **Rendering.** `PaperMarks`, `Canvas` and `ThumbnailPixels`: paper marks,
   grouped canvas paths, culling, grain and box filter.
5. **The library list.** `Library`: the reducer behind the library screen.

Objects that the source updates in place are classes here (`PageStore`,
`RealtimeHub`, `PageContext`, `PageSocket`, `PageFeed`, `PageChannel`, `Outbox`,
`ExportPolicy`, `TelemetryState`, `CanvasContext`, `Pen`, `Pixmap`, `PageList`).
Almost every method is proved equal to a function on values, and the theorems
are about those functions and about runs of them; the rest state their result
outright.

`dafny verify dfyconfig.toml` checks everything.

## Hypotheses

The code leaves these to timing or to its callers. They appear by name in the
theorems that need them and nowhere else.

- *`Harmless`.* A commit's news reaches the channel in a step of its own, any
  news may be the next, and a commit whose acknowledgement is lost has none. In
  a harmless run every commit is acknowledged and news overtakes only what it
  may: no erase overtakes ink it erases, no paper another paper. Only
  `PageSystem.ViewerConverges` and what follows from it need this;
  `AnyOrder.ViewerConvergesIff` has the exact condition with no such hypothesis.
  Sessions whose transactions are acknowledged and told within the leases of
  their checks make harmless runs (`Together.TimelyRunsAreInOrder`), so that
  viewers converge (`Together.TimelySessionsConverge`); sessions that are late
  need not (`Editing.LateNewsMisleads`, `Losses.ErasePublishedFirst`).
- *A key keeps its payload.* Adds follow a map from key to strokes. The re-echo
  of a retry is built from the strokes submitted, not from those stored
  (`crates/server/src/realtime/store.rs:191-220`); `History.ReechoCanDisagree`
  gives the input that shows the hypothesis is needed, and
  `History.ReechoAgreesIff` says for all inputs when an echo is the stored ink.
- *`calm`.* A replay reads the head where it read the rows; no live batch is
  forwarded before the replay, nor at all after a failed one; none is published
  ahead of another; and every commit is acknowledged. `Cursor.CursorIsSound`
  needs it, convergence on an open connection does not. A run loses a batch in
  each of the five ways: `Losses.LateHeadCanSkip`, `Losses.CursorCanSkip`,
  `Losses.FailedReplayCanSkip` (one failed read, nothing concurrent),
  `Losses.BatchesOutOfOrderSkip` and `Losses.UnheardBatchIsSkipped`.
  `Losses.ReplayIsSoundIff` and `Losses.LiveBatchIsSoundIff` say exactly when
  the replay, and when a live batch in any phase, leaves the cursor sound.
- *Clocks do not go back*, and random tickets are distinct while they live.

## Where the code and its documentation differ

- A `Retry-After` with a leading plus sign is read as a delay, which the
  delay-seconds form of section 10.2.3 of RFC 9110 does not have
  (`Outbox.PlusSignIsRead`, `Outbox.OnlyDelaySecondsAreRead`).
- "Resuming from the cursor loses nothing" holds only in calm runs, see above.
- "Only one client may edit a page at a time" (`docs/PLAN.md:37`) holds of the
  checks, not of the commits: a transaction that outlives the lease of its check
  lands while another session holds the page
  (`Editing.SlowTransactionBreaksTurns`; `Editing.OutOfTurnIff` has the exact
  condition). For the same reason fan-out does not always deliver changes in
  order (`docs/PLAN.md:335`): a session's news can go out after that of the
  session that took the page over from it (`Editing.LateNewsMisleads`).
- A paper change is value-idempotent, and answered directly "so a racing client
  converges" (`docs/PLAN.md:67`). The asker does. When the commit landed and its
  acknowledgement was lost (`crates/server/src/realtime/store.rs:571-573`), no
  other viewer is told until it reconnects, for the retry finds the paper in
  force
  (`Losses.UnheardPaperIsNeverTold`); ink and erases are told again
  (`Pending.RetryTellsAgain`).
- The coalesced replay and the frame-by-frame one end in one cursor only while
  the head read does not fail (`Replay.FailedHeadReadSplitsIff`,
  `Replay.FailedHeadReadCanSplit`; `Replay.CoalescedRefinesFrames` has the
  condition for any head).

## Model

| member | source | states |
|---|---|---|
| Store.PageStore.PersistBatch | crates/server/src/realtime/store.rs:154-268 | The add transaction moves the rows exactly as `AfterBatch` does: retry by key, suppression by tombstones, next seq and revision, one job row |
| Store.PageStore.PersistTombstones | crates/server/src/realtime/store.rs:359-448 | The erase transaction moves the rows exactly as `AfterTombstones` does, its loop of single inserts included |
| Store.PageStore.PersistPaper | crates/server/src/realtime/store.rs:473-583 | The paper transaction moves the rows exactly as `AfterPaper` does; a job only when visible ink exists |
| Store.PageStore.FinishRender | crates/server/src/thumbnails.rs:150-262 | A render that ends marks its revision's row, if it is still there, available or failed, and no other |
| Store.PageStore.Cleanup | crates/server/src/thumbnails.rs:650-670 | Retention leaves exactly the rows of `AfterCleanup` |
| History.FreshIdsSpec | crates/server/src/realtime/store.rs:376-404 | Sort, dedup and retain leave each requested id not erased before, exactly once |
| History.RunIsSound | crates/server/src/realtime/store.rs:154-583 | In every run of adds, erases, paper changes, renders and cleanups: seqs are 1..n, revisions strictly increase, stored ink is older than its tombstone, the two tombstone tables agree and are disjoint, and the head revision is 0 or names a kept row |
| History.BumpMintsOneJob | crates/server/src/realtime/store.rs:289-329 | A step leaves the revision and mints no job, or raises it by one and mints exactly that revision's job, with no conflict |
| History.AcknowledgedAsStored | crates/server/src/realtime/store.rs:176-249 | The acknowledgement names the row stored and carries exactly its strokes; otherwise nothing changed |
| History.EraseAcknowledgedAsStored | crates/server/src/realtime/store.rs:359-448 | Under a new key an erase erases exactly the ids asked for and not erased before, at one new revision, and says which; under an old key it says what it said then and changes nothing |
| History.PaperAcknowledgedAsStored | crates/server/src/realtime/store.rs:473-583 | A paper change is answered with the revision it left, and a new time stamp exactly if the paper changed |
| History.StampedWhenChanged | crates/server/src/realtime/store.rs:289-329 | The page's time stamp is that of the last step that changed its revision or its paper |
| History.SnapshotOf | crates/server/src/thumbnails.rs:205-242 | The strokes selected for a revision, batches and tombstones read in two different later states, are those visible when it was current |
| History.SnapshotsAreImmutable | crates/server/src/thumbnails.rs:187-267 | For every revision a run ever mints, whatever follows, each later read finds the ink visible and, while the row is kept, the paper in force when it was minted |
| History.ErasedStaysErased | crates/server/src/realtime/store.rs:180-195 | Once tombstoned, an id is never visible and never stored again |
| History.RetriesChangeNothing | crates/server/src/realtime/store.rs:176-246 | Repeats of earlier adds and erases, wherever they fall in a run, change no table, those of fully suppressed adds included |
| History.PaperRepeatIsSilentIff | crates/server/src/realtime/store.rs:492-583 | A paper change is silent exactly while that paper is in force; it mints a job exactly when it changes a page with visible ink, and leaves the ink alone |
| History.ReechoIsStoredInk | crates/server/src/realtime/store.rs:191-220 | While keys keep their payload, a retry re-echoes, under the stored seq and revision, exactly the stored strokes not erased today |
| History.ReechoCanDisagree | crates/server/src/realtime/store.rs:191-220 | Without that, a concrete retry is echoed with ink no replay carries |
| History.RowShowsFirstPayload | crates/server/src/realtime/store.rs:176-268 | In every run the row under a key shows today what is left of the first payload that stored one, and there is a row if and only if one did |
| History.ReechoAgreesIff | crates/server/src/realtime/store.rs:191-220 | With no hypothesis on keys: a retry's echo is the stored ink not erased today if and only if its strokes and the key's first payload agree once today's erased ids are removed |
| History.CleanupKeepsExactly | crates/server/src/thumbnails.rs:650-670 | Retention keeps exactly the head and the ten newest recent others |
| History.NewestTakesTheTop | crates/server/src/thumbnails.rs:650-670 | What is kept of the recent rows is newer than what is dropped |
| History.KeptIff | crates/server/src/thumbnails.rs:650-670 | A row stays if and only if it is the head's, or at most seven days old with fewer than ten such above it |
| History.JobTellsItsRenders | crates/server/src/thumbnails.rs:150-262 | Over any run a thumbnail row says how its last render ended, available or failed, and what it said before if none did |
| Hub.RealtimeHub.PublishPage | crates/server/src/realtime/hub.rs:200-222 | A published message joins its page's channel and no other |
| Hub.RealtimeHub.Recv | crates/server/src/realtime/socket.rs:509-554 | A receiver gets what it would from the whole unbounded log, or is told it lagged |
| Hub.RecvRefinesLog | crates/server/src/realtime/hub.rs:183-222 | The ring of 256 refines the unbounded log: no message is skipped silently |
| Hub.RealtimeHub.AcquireLease | crates/server/src/realtime/hub.rs:225-269 | Acquire and renew act on the lease table as `AfterAcquire` |
| Hub.RealtimeHub.ReleaseLease | crates/server/src/realtime/hub.rs:272-282 | Only the holder's release removes the lease |
| Hub.RealtimeHub.CurrentLeaseHolder | crates/server/src/realtime/hub.rs:284-300 | The holder read, with an expired lease dropped |
| Leases.HeldThrough | crates/server/src/realtime/hub.rs:225-300 | A grant's lease stays in the table, with its expiry, until the holder releases or 30 s pass |
| Leases.RunningLeaseIsExclusive | crates/server/src/realtime/hub.rs:225-269 | While it runs, every other session is denied and told the holder |
| Leases.GrantsAreExclusive | crates/server/src/realtime/hub.rs:225-300 | A grant to another session means the holder released or 30 s passed since its last grant |
| Leases.TableNamesWhoRuns | crates/server/src/realtime/hub.rs:225-300 | The table names a session, unexpired, if and only if it was granted the page, has not released since and its 30 s are not over |
| Leases.GrantedIffFree | crates/server/src/realtime/hub.rs:225-269 | A session that asks is granted the page if and only if no other session's grant still runs, and then holds it for 30 s from there |
| Leases.PeekNamesWhoRuns | crates/server/src/realtime/hub.rs:284-300 | A peek names exactly the session whose grant runs, and drops an entry that is over |
| Leases.EndedSessionHoldsNothing | crates/server/src/realtime/socket.rs:471-476 | After its loop's last release, a session that asks no more is never in the lease table |
| Hub.RealtimeHub.IssueTicket | crates/server/src/realtime/hub.rs:106-123 | A ticket issued is in the table for its owner, to expire a minute later |
| Hub.RealtimeHub.ConsumeTicket | crates/server/src/realtime/hub.rs:125-139 | Expired tickets are dropped, and a live one is handed out and removed |
| Leases.RedeemedOnceWithinItsMinute | crates/server/src/realtime/hub.rs:106-139 | A ticket redeems to an owner if and only if it was issued to that owner less than a minute before and not redeemed since |
| Leases.RedemptionSweeps | crates/server/src/realtime/hub.rs:125-139 | A redemption leaves exactly the other tickets that have not expired |
| Dispatch.PageContext.Check | crates/server/src/realtime/dispatch.rs:32-146 | A client message up to its transaction: lease table, lease news and the one direct answer are those of `Checked`, or a mutation is left to run |
| Dispatch.PageContext.Persist | crates/server/src/realtime/dispatch.rs:150-373 | The awaited transaction moves the rows as the store's own does, and leaves to be said what `AfterPersist` says, in each of its endings: acknowledged; rolled back, with nothing changed and an error for the asker; or landed with its acknowledgement lost, with the rows changed, no news and the same error |
| Dispatch.PageContext.Tell | crates/server/src/realtime/dispatch.rs:150-373 | The news goes to the page's channel and the reply to the peer, nothing else |
| Dispatch.PageContext.ReplayPage | crates/server/src/realtime/dispatch.rs:433-508 | Of the reads made, each given as it came back or failed: the frames sent are their replay, or the part of it that the peer took |
| Dispatch.PageContext.SendReplayFrames | crates/server/src/realtime/dispatch.rs:540-573 | Every surviving batch in seq order, then every tombstone batch, as far as the peer takes them |
| Dispatch.PageContext.EndSession | crates/server/src/realtime/socket.rs:471-476 | A socket that ends releases its lease and announces it if it held one |
| Editing.ChangeWasGranted | crates/server/src/realtime/dispatch.rs:142-186 | In every run of checks, transactions and announcements of any sessions: rows change only by a landed transaction, by exactly the mutation its session asked for, under a lease granted at that session's own earlier check |
| Editing.AnnouncementIsNews | crates/server/src/realtime/dispatch.rs:150-229 | What is announced is exactly the news of that session's own landed transaction |
| Editing.LandsInTurnIff | crates/server/src/realtime/dispatch.rs:142-186 | When a transaction lands no other session holds the page if and only if the lease table does not then name another, unexpired |
| Editing.HoldsIffOvertaken | crates/server/src/realtime/dispatch.rs:142-186 | Another session holds the page as a transaction lands if and only if it was granted the page after the check's own lease lapsed, and its grant still runs |
| Editing.OutOfTurnIff | crates/server/src/realtime/dispatch.rs:142-186 | A transaction lands out of turn if and only if some session so overtook it; never within the lease of its check |
| Editing.EditorsTakeTurns | crates/server/src/realtime/dispatch.rs:140-186 | When two sessions change a page's rows, the first holds the page as the second's transaction lands if and only if it overtook that transaction, which then outlived its lease |
| Editing.SlowTransactionBreaksTurns | crates/server/src/realtime/dispatch.rs:140-186 | A concrete run: a check at 0 s, another session's grant and change at 31 s, the first transaction landing at 40 s |
| Editing.LateNewsMisleads | crates/server/src/realtime/dispatch.rs:150-355 | A concrete run: A's paper lands at 1 s, B is granted the page at 31 s and changes the paper and says so, A's news goes out at 40 s; B's paper is stored, and any viewer of the channel is left with A's |
| Editing.PromptTransactionsKeepOrder | crates/server/src/realtime/dispatch.rs:140-229 | Transactions whose news goes out within their leases never overlap, and are announced in the order they landed |
| Editing.LogIsInLandingOrder | crates/server/src/realtime/dispatch.rs:140-229 | When everything announced goes out within the lease of its check, the news of commits stands in the channel in the order in which the transactions landed |
| Editing.EveryRunKeepsRowsSound | crates/server/src/realtime/dispatch.rs:32-373 | Whatever sessions send, in any order, the rows stay sound |
| Editing.OnlyGoodInkIsLeftToRun | crates/server/src/realtime/dispatch.rs:150-170 | Of a session that no other keeps off the page, an add is left to run if and only if every stroke has an id, the one supported style (solid_round, version 2, round cap and join, uppercase #RRGGBB, width 1 to 32 in halves) and no pressure or one in 0..1; else it is refused with the invalid-stroke error and nothing changes |
| Editing.OnlyGoodInkIsStored | crates/protocol/src/lib.rs:237-325 | In every run, whatever sessions send, every stroke stored meets those conditions |
| Editing.MessageIsAnswered | crates/server/src/realtime/dispatch.rs:32-146 | From the lease table alone: a session that another keeps off the page is told who does and nothing else happens; any other has the page for 30 s from now, only an acquire is announced, and a mutation is left to run as asked |
| Editing.ReleaseIsAnswered | crates/server/src/realtime/dispatch.rs:32-146 | A release by the holder frees the page and is announced; any other does nothing |
| Editing.FailureIsAnswered | crates/server/src/realtime/dispatch.rs:171-186 | A transaction rolled back or of unknown end is answered with the error of its kind and told to nobody; only the first leaves the rows as they were |
| Editing.InkIsAnswered | crates/server/src/realtime/dispatch.rs:187-229 | Subscribers are told the strokes not erased by then, under the seq of their key's row, or nothing if all are erased |
| Editing.EraseIsAnswered | crates/server/src/realtime/dispatch.rs:231-305 | Subscribers are told the ids erased, as the row under the erase's key has them |
| Editing.PaperIsAnswered | crates/server/src/realtime/dispatch.rs:306-373 | A change of paper is told to all; the paper in force only to who asked for it |
| Socket.PageSocket.SendWelcome | crates/server/src/realtime/socket.rs:558-605 | The welcome carries session, head (0 if unreadable), live lease holder and stored paper; unreadable paper ends the connection instead |
| Socket.PageSocket.ForwardPageFanout | crates/server/src/realtime/socket.rs:509-554 | With a message ahead, in reach and room at the peer, exactly that message is sent and the position moves by one; a subscriber that lagged is closed with nothing skipped |
| Socket.PageSocket.TakeTurn | crates/server/src/realtime/socket.rs:430-468 | One turn of the loop moves rows, leases, channel, frames sent and what is awaited exactly as `Turned` |
| Socket.ServedFollows | crates/server/src/realtime/socket.rs:430-477 | Over any turns, other sessions' acts between its awaits included: the frames sent, without the connection's own, are the channel from where it joined to the next message to forward; a session whose loop broke holds the page no more |
| Socket.FallenBehindHearsNoMore | crates/server/src/realtime/socket.rs:493-551 | A subscriber more than the channel's capacity behind is passed on nothing more, and the next fan-out closes it |
| Socket.ReadyPassesOn | crates/server/src/realtime/socket.rs:509-535 | A ready loop not fallen behind, with room at its peer, passes exactly the next message of the channel on and stays open |
| Socket.ServedPassesOn | crates/server/src/realtime/socket.rs:430-468 | Over any turns that leave the loop open: one message was passed on for each fan-out it took with a message ahead, and besides its own frames the peer was sent exactly the channel up to there |
| Socket.FanoutsPassOnTheChannel | crates/server/src/realtime/socket.rs:430-468 | `n` fan-outs in a row with room for them pass on exactly the next `n` messages, and once the channel is passed on the loop only waits |
| Socket.AnswerIsSent | crates/server/src/realtime/socket.rs:442-456 | The answer to a message is the next frame of its session |
| Socket.CommitIsServed | crates/server/src/realtime/dispatch.rs:150-373 | A mutation left to run is awaited, its news joins the channel and its reply the frames, and the loop is ready again |
| Socket.BreaksOnlyWhen | crates/server/src/realtime/socket.rs:430-468 | The loop breaks only when its peer left, fell behind or takes no more |
| Socket.PageSocket.Serve | crates/server/src/realtime/socket.rs:409-477 | The frames the peer was really sent are those of `Served`; without the welcome, replies and replays they are an unbroken stretch of the channel from where it subscribed, one message for each fan-out taken with one ahead while the loop is open; once the loop broke the session holds no lease |
| Client.PageChannel.PageRealtimeOnce | frontend/src/realtime.rs:141-207 | One connection asks from the viewer's cursor and folds its messages into the viewer in order |
| Client.PageChannel.PageRealtimeLoop | frontend/src/realtime.rs:97-139 | Over any attempts the viewer is that of `Looped`, each subscribe asks from the cursor it had then, and every attempt is counted |
| Client.ResumeKeepsThePage | frontend/src/realtime.rs:166-205 | A reconnect whose welcome is not below the cursor keeps ink and cursor and takes the server's paper; the cursor never goes down from there |
| Client.AttemptsAddUp | frontend/src/realtime.rs:97-139 | However often the connection was lost, ink, cursor and paper are those of all that was delivered, as if on one connection |
| Client.AsksFromTheCursor | frontend/src/realtime.rs:97-139 | Each attempt that gets to ask does so from the cursor that all delivered before it makes |
| Client.SaysWhyItReconnects | frontend/src/realtime.rs:97-139 | After any attempts the viewer says that it reconnects and why the last one ended |
| Viewer.PageFeed.ApplyPageEvent | frontend/src/viewer.rs:314-390 | One event moves the viewer's signals exactly as `Applied` and keeps batches in seq order |
| Viewer.ErrorTellsTheEvents | frontend/src/viewer.rs:368-382 | Told from the events alone: the error shown is the server's own words, from the last error reported, unless a batch or the end of a replay came since |
| Viewer.StatusTellsTheEvents | frontend/src/viewer.rs:328-367 | The status shown is that of the last event that sets one: connected, live or synced |
| Viewer.PageFeed.MergeReplay | frontend/src/viewer.rs:331-368 | A replay's batches are merged into those on screen, then its tombstones applied to all |
| Viewer.InsertBatch | frontend/src/viewer.rs:414-419 | Binary search and insert or replace give the list of `Inserted` |
| Viewer.InsertedSpec | frontend/src/viewer.rs:414-419 | The result is in strict seq order, holds the batch, and every other batch and no more |
| Viewer.RetainSurviving | frontend/src/viewer.rs:403-409 | Only strokes whose id is removed go, and no batch |
| Protocol.SurvivingMembers | frontend/src/viewer.rs:403-409 | What is retained is exactly what is not tombstoned |
| Protocol.TombstonedIdsConcat | frontend/src/viewer.rs:393-398 | The ids erased by batches are the union over them |
| Ordering.SortDedup | crates/server/src/realtime/store.rs:376-381 | Sort then dedup gives each id once, in order |
| Ordering.BeforeIff | crates/server/src/realtime/store.rs:376-381 | The order is that of a dictionary over the characters' values |
| Replay.CoalescedRefinesFrames | crates/server/src/realtime/dispatch.rs:463-573 | From any viewer state one `page-replay` and the frame sequence end in the same ink, status, error and paper, and in the same cursor if and only if no batch is beyond both the head sent and the cursor |
| Replay.ReadsAgreeOnTheCursor | crates/server/src/realtime/store.rs:94-125 | With a head read no earlier than the batches, the two shapes end in one viewer state |
| Replay.FailedHeadReadSplitsIff | crates/server/src/realtime/dispatch.rs:461-503 | When the head read fails the two shapes end in different cursors if and only if the page has rows beyond the cursors asked for and held |
| Replay.FailedHeadReadCanSplit | crates/server/src/realtime/dispatch.rs:461-503 | One row and a new viewer: cursor 0 in one frame, 1 in several |
| Replay.ReplayCarriesNoErasedInk | crates/server/src/realtime/dispatch.rs:463-573 | Neither shape of a replay carries a stroke that the tombstones it was read with erase |
| Convergence.ConvergingStep | frontend/src/viewer.rs:314-390 | Applying the next pending message keeps a viewer converging |
| Convergence.PendingMakesThePage | frontend/src/viewer.rs:314-418 | Folding all that is pending into a converging viewer gives the stored page |
| Pending.CommitAnnounces | crates/server/src/realtime/dispatch.rs:130-373 | A commit's news tells the viewer all the commit changed, retries included |
| Pending.NewsKeepsConverging | crates/server/src/realtime/dispatch.rs:130-373 | A commit with its news behind what was pending keeps a viewer converging to the new page |
| Pending.RetryTellsAgain | crates/server/src/realtime/dispatch.rs:130-373 | A commit tried again changes nothing more and tells subscribers what it would have told at first; a paper tells nobody but its asker |
| Orders.Overtake | frontend/src/viewer.rs:314-390 | News that erases nothing of what it overtakes and sets no other paper can be applied first: what is brought, erased and named stays the same and deliverable |
| Orders.RevisedRightIff | frontend/src/viewer.rs:314-418 | Messages of any kind, replays included, leave a seq with the page's batch if and only if the last batch they bring of it, or the one held if they bring none, is followed by the erasure of all that is erased of it |
| Orders.ComesRightIff | frontend/src/viewer.rs:314-418 | A viewer that holds any stored batches is brought to the stored ink by any messages in any order if and only if each seq so comes right, and to the stored paper if and only if that is the last one named, or the one held if none is |
| Orders.OrderIsHarmlessIff | frontend/src/viewer.rs:314-418 | What is under way to a converging viewer, applied in any order whatever, gives the stored ink if and only if each seq's last batch is so followed, and the stored paper if and only if that is the last one named |
| PageSystem.EventKeepsInv | crates/server/src/realtime/socket.rs:409-554 | Every step of the machine that publishes nothing past what it may not overtake keeps the system invariant |
| PageSystem.ReplaySentKeepsInv | crates/server/src/realtime/dispatch.rs:433-573 | A replay from reads made at different moments, in either shape, brings the viewer back on course |
| PageSystem.ViewerConverges | frontend/src/viewer.rs:314-418 | In every harmless run: on an open connection that joined gap-free and has its replay, folding everything under way gives exactly the stored batches in seq order minus all tombstoned strokes, and the paper in force; with nothing under way the viewer shows it |
| PageSystem.PublicationsConvergeIff | crates/server/src/realtime/dispatch.rs:150-229 | The shorter condition while a run has been harmless so far: which orders of what is still unpublished bring that viewer to the stored ink, and which to the stored paper. `AnyOrder.ViewerConvergesIff` is for every run |
| PageSystem.InOrderIsHarmless | crates/server/src/realtime/dispatch.rs:150-229 | Runs that publish in commit order are harmless |
| PageSystem.ForwardsAnUnbrokenPrefix | crates/server/src/realtime/socket.rs:493-554 | In every run, in any order of publication: what the viewer applied and what is on its wire, without the welcome and the replay, is an unbroken stretch of the channel from where it subscribed, and the viewer is what applying it made; past the channel's capacity nothing more is forwarded |
| AnyOrder.EventKeepsWorld | crates/server/src/realtime/socket.rs:409-554 | Every step whatever, out of order or unacknowledged, keeps rows sound and all that is held, queued, on the wire or in the replay's hands about the page as stored |
| AnyOrder.ViewerConvergesIff | frontend/src/viewer.rs:314-418 | In every run, at every moment of every open connection, replay frames on the wire or not, however news was published so far and in whatever order the rest is: what is under way brings the viewer to the stored ink if and only if, for each seq, the last batch to come, or else the one held, is followed by the erasure of all that is erased of it; and to the stored paper if and only if that is the last one named, or else the one shown |
| AnyOrder.GapFreeHasEach | frontend/src/realtime.rs:166-205 | While every commit is acknowledged, in any order of publication, a gap-free viewer with its replay holds or is brought every stored seq |
| AnyOrder.ReplayHeals | crates/server/src/realtime/dispatch.rs:433-573 | Whatever was published out of order before it, from a replay on a gap-free viewer comes to the stored ink if and only if what is still to be forwarded ends with each seq's last batch followed by its erasures |
| Together.SessionsAreFollowed | crates/server/src/realtime/dispatch.rs:32-373 | Whatever the sessions can do, in any interleaving and with any ending of their transactions, the page channel can follow with its own steps, while ink keeps to its key |
| Together.StepStaysTied | crates/server/src/realtime/dispatch.rs:130-373 | Along the way the channel's rows and log are those of the sessions' server, and what it has not published is the news they have not told, in the order their transactions landed |
| Together.TimelyRunsAreInOrder | crates/server/src/realtime/dispatch.rs:140-229 | Every run of sessions and a viewer is a run of the page channel; it publishes in commit order if no transaction is under way or untold past the lease of its check and none is unacknowledged |
| Together.TimelySessionsConverge | frontend/src/viewer.rs:314-418 | So with such sessions, whatever they do, a viewer that joined gap-free and has its replay is brought to exactly the page stored |
| Serving.OwnTurnIsItsEvent | crates/server/src/realtime/socket.rs:430-468 | Each turn of a session's own loop is one event of the machine of sessions, or none, so that what is proved of its runs holds of the loops |
| Serving.BrokenLoopCloses | crates/server/src/realtime/socket.rs:471-476 | A loop that breaks is the close of its session there, with no work left behind |
| Serving.WelcomeStarts | crates/server/src/realtime/socket.rs:423-428 | A loop that has sent its welcome stands where the page channel has a viewer just welcomed |
| Serving.TurnIsAStep | crates/server/src/realtime/socket.rs:430-554 | Each turn of a viewer's loop that leaves it open is one step of the page channel, or none: same rows, channel, place in it, frames sent and reads made |
| Serving.ServedIsARun | crates/server/src/realtime/socket.rs:430-468 | Over any turns an open viewer's loop makes a run of the page channel |
| Serving.ServedViewerShowsThePage | frontend/src/viewer.rs:314-418 | End to end, for news told in the order it came about: a viewer that subscribed gap-free, was sent its replay and was passed on the whole channel shows exactly the stored batches less all erased strokes, and the stored paper, once it has applied the frames its loop really sent |
| Cursor.EventKeepsCursor | frontend/src/realtime.rs:141-207 | Every calm step keeps the cursor invariant |
| Cursor.CursorIsSound | frontend/src/realtime.rs:97-207 | In every calm run, over drops, lag and reconnects, and however late an erase or a paper is published, the viewer holds every stored batch up to its cursor, the cursor is within the table, and every connection is gap-free |
| Cursor.CalmViewerConverges | frontend/src/realtime.rs:97-207 | In calm runs that are harmless too, every connection with its replay comes to the stored page |
| Losses.LiveBatchIsSoundIff | crates/server/src/realtime/socket.rs:430-468 | In any phase, whatever is on the wire that leaves the cursor sound, whatever the viewer holds: a live batch leaves the cursor sound if and only if every batch before it is then held |
| Losses.ReplayIsSoundIff | crates/server/src/realtime/dispatch.rs:445-508 | In either shape, behind any frames that leave the cursor sound, to a viewer that held all it did not ask for: a replay keeps the cursor sound up to its last frame, and then if and only if the head read failed or the viewer by then holds what was committed between the two reads |
| Losses.CursorCanSkip | crates/server/src/realtime/socket.rs:430-468 | A run with a live batch before the replay that ends with a stored batch behind the cursor, never held and not read again |
| Losses.FailedReplayCanSkip | crates/server/src/realtime/dispatch.rs:445-460 | So does a run with one failed read and nothing concurrent: the socket stays open and passes the next batch on |
| Losses.LateHeadCanSkip | crates/server/src/realtime/dispatch.rs:445-461 | So does a run with a commit between the rows read and the head read |
| Losses.BatchesOutOfOrderSkip | crates/server/src/realtime/dispatch.rs:150-229 | So does a run in which the second of two batches is published first |
| Losses.ErasePublishedFirst | crates/server/src/realtime/dispatch.rs:150-305 | A run in which an erase's news is published before that of the ink it erases: all has arrived, and the viewer still shows the ink |
| Losses.RetryRepairs | crates/server/src/realtime/dispatch.rs:150-305 | That run, and the erase tried again: its news is told once more and the viewer shows the stored page |
| Losses.UnheardPaperIsNeverTold | crates/server/src/realtime/store.rs:492-583 | A run in which a paper's commit lands unacknowledged and is tried again: the paper is stored, and an idle viewer keeps the old one |
| Losses.UnheardBatchIsSkipped | crates/server/src/realtime/store.rs:247-268 | A run in which ink lands unacknowledged and the next batch is told: the viewer's cursor passes it, and it is not read again |
| Outbox.QueueIsFifo | frontend/src/telemetry/outbox.rs:83-137 | Over any pushes, takes, resizes and clears: what left, in order, then what is held, is what arrived; within capacity; `dropped` counts each item lost for room |
| Outbox.Outbox.SetCapacity | frontend/src/telemetry/outbox.rs:106-112 | Lowering the cap drops the oldest to fit and counts them |
| Outbox.Outbox.Push | frontend/src/telemetry/outbox.rs:93-103 | A full queue gives up its oldest; one of no capacity refuses |
| Outbox.Outbox.TakeBatch | frontend/src/telemetry/outbox.rs:115-118 | Up to `max` of the oldest, the rest kept in order |
| Outbox.LifecycleFollowsTheAnswers | frontend/src/telemetry/outbox.rs:279-339 | Told from the events alone: telemetry is off if and only if some event ended it, configured if and only if a usable credential came, and failed refreshes are the unanswered fetches since |
| Outbox.OffForItsFirstReason | frontend/src/telemetry/outbox.rs:279-339 | Once off, the reason is that of the first event that ended telemetry, told from the events alone |
| Outbox.CredentialsAreTheLatest | frontend/src/telemetry/outbox.rs:279-339 | While configured, the credential in use is that of the last usable answer |
| Outbox.OffIsFinal | frontend/src/telemetry/outbox.rs:279-339 | The first reason to be off is the last |
| Outbox.DelaySecondsAreRead | frontend/src/telemetry/outbox.rs:413-422 | Digits with any white space around them are read as their value in base ten, or refused from 2^32 up |
| Outbox.OnlyDelaySecondsAreRead | frontend/src/telemetry/outbox.rs:413-422 | Something is read if and only if it is digits below 2^32 behind an optional plus sign, and what is read is their value |
| Outbox.PlusSignIsRead | frontend/src/telemetry/outbox.rs:413-422 | "+5" is read as five seconds |
| Outbox.RetryAfterIsHonoured | frontend/src/telemetry/outbox.rs:382-396 | After a retryable answer with a delay, no export starts before it is over, up to 15 minutes |
| Outbox.CeilingDoubles | frontend/src/telemetry/outbox.rs:565-572 | The ceiling starts at five seconds and doubles up to five minutes |
| Outbox.JitterSpreads | frontend/src/telemetry/outbox.rs:565-572 | Half the ceiling is waited for sure and the jitter spreads the other half evenly |
| Outbox.TheLongerWaitCounts | frontend/src/telemetry/outbox.rs:540-549 | The wait is the longer of the backoff and what the ingest asked for, up to 15 minutes |
| Outbox.FailureSilences | frontend/src/telemetry/outbox.rs:536-572 | The n-th failure in a row silences the exporter for at least half its capped ceiling and at most 15 minutes |
| Outbox.ExportPolicy.Record | frontend/src/telemetry/outbox.rs:495-561 | One answer moves the policy exactly as `AfterRecord` |
| Transitions.StopsExactlyWhenFatal | frontend/src/telemetry/outbox.rs:466-561 | The exporter is stopped if and only if it was told to from outside, a sixth retryable answer or a second 401 came with no accepted one between; at most one refresh is asked for between accepted answers |
| Transitions.MayExportIff | frontend/src/telemetry/outbox.rs:471-473 | An export may start if and only if nothing ended it, no fresh token is owed for a 401, and the wait of the last answer that sets one is over, told from the events alone |
| Transitions.StopsForItsReason | frontend/src/telemetry/outbox.rs:511-549 | The event that stops the exporter gives its reason: the one from outside, a refused token, or giving up |
| Transitions.ReportsAreWellFormed | frontend/src/telemetry/outbox.rs:424-433 | Over any answers the reports match (StartedFailing Recovered)* StartedFailing? Stopped?, and the last one tells how the exporter stands |
| Transitions.StoppedIsAbsorbing | frontend/src/telemetry/outbox.rs:485-511 | Once stopped, nothing is reported, exported or changed of the reason |
| Exporter.TelemetryState.TakeNextBatch | frontend/src/telemetry.rs:633-672 | A retry first, else up to 256 fresh items, with the attempt counted |
| Exporter.TelemetryState.Settle | frontend/src/telemetry.rs:689-722 | An answer keeps the batch for retry or counts it lost, and ends the tick unless accepted |
| Exporter.TelemetryState.ReceiveAnswer | frontend/src/telemetry.rs:684-727 | An answer is settled and the export goes on, in one go, to the next batch to send or to its end |
| Exporter.TelemetryState.Stop | frontend/src/telemetry.rs:229-239 | Turns telemetry off once and discards what is queued |
| Exporter.TelemetryState.ApplyConfig | frontend/src/telemetry.rs:181-201 | A configuration answer resumes exports and raises the caps, or stops |
| Exporter.TelemetryState.FlushOnPagehide | frontend/src/telemetry.rs:785-813 | Up to 64 of the oldest of each signal, behind the hard gates only |
| Exporter.TelemetryState.ExportOnce | frontend/src/telemetry.rs:674-727 | A tick starts an export only when none runs and the policy allows it, and goes on to the first batch to send |
| Exporter.ExportStartsWithTheFirst | frontend/src/telemetry.rs:674-688 | An export that may start posts what the first signal with work owes, traces before logs: its batch to retry, or its oldest 256 items; it is over at once only if neither has any |
| Exporter.ExportWaits | frontend/src/telemetry.rs:674-682 | Stopped, owed a fresh token, told to wait, or without a credential good for another 30 s, nothing is posted and nothing leaves its place |
| Exporter.LogsFollowAcceptedTraces | frontend/src/telemetry.rs:684-727 | Once traces are accepted the logs with work follow; accepted logs, or traces with no logs behind them, end the export |
| Exporter.BatchIsKeptIff | frontend/src/telemetry.rs:695-722 | A batch is delivered on a success; kept for another post if and only if there was no answer or 429, 502, 503 or 504, it has been posted fewer than three times and this is not the sixth failure in a row; else lost and counted |
| Exporter.PolicyByStatus | frontend/src/telemetry/outbox.rs:495-561 | What each status does to the policy: a token asked for, an end, a failure counted, or a clean slate |
| Exporter.FitKeepalive | frontend/src/telemetry.rs:819-827 | The body sent encodes the prefix that `FitCount` keeps |
| Exporter.FitIsTheFirstHalvingThatFits | frontend/src/telemetry.rs:819-827 | That prefix is the first halving whose body fits, or one item; never none of some |
| ExportRuns.EventFollows | frontend/src/telemetry.rs:548-727 | Each event moves each signal's lane by one classified change |
| ExportRuns.RunFollowsBoth | frontend/src/telemetry.rs:548-727 | In every run the lifecycle and the policy are what their own events make them, so that all that is proved of either holds of the exporter as it runs |
| ExportRuns.EachSignalGetsItsTurn | frontend/src/telemetry.rs:684-688 | An export whose answers are all accepted is not over before traces and logs were both offered their turn |
| ExportRuns.TurnPostsWhatIsDue | frontend/src/telemetry.rs:633-672 | A turn taken under a good token posts what its signal owes |
| ExportRuns.EveryRunKeepsRoom | frontend/src/telemetry.rs:181-201 | In every run the queues have room for 128 items until the first usable configuration and for 512 from then on |
| ExportRuns.NothingIsLostFromTheBooks | frontend/src/telemetry.rs:630-727 | In every run each queued item is in exactly one of queue, retry slot, wire, accepted, lost and counted, discarded, unloaded; queues within capacity; a retry slot is empty while its batch is out; no batch out more than three times; a stopped exporter holds nothing |
| ExportRuns.EachQueueIsFifo | frontend/src/telemetry.rs:548-727 | In every run, for each signal: what left its queue, in order, followed by what it holds, is what came, in order; the batch on the wire, first time or again, and the one kept for retry hold items that came one after another |
| ExportRuns.FailuresAreSpaced | frontend/src/telemetry/outbox.rs:471-473 | In every run retryable failures in a row are at least half their ceilings apart |
| ExportRuns.GivingUpTakesItsTime | frontend/src/telemetry/outbox.rs:530-545 | Giving up on an answer is at the sixth failure in a row, at least 77.5 s after the first |
| PaperMarks.VisitMultiples | crates/protocol/src/paper.rs:504-520 | The loop visits exactly the sequence `Multiples` |
| PaperMarks.MultiplesAreExact | crates/protocol/src/paper.rs:502-520 | Strictly ascending, only integer multiples in range, all of them when at most 4096 fit, else the first 4096 |
| PaperMarks.NoneMissing | crates/protocol/src/paper.rs:502-520 | Up to the cap, visited if and only if an integer multiple in range |
| PaperMarks.VisitPaperMarks | crates/protocol/src/paper.rs:358-393 | Visible rules, then visible columns, then the margin in view |
| PaperMarks.RulesStandAtTheirPitch | crates/protocol/src/paper.rs:358-393 | Below the cap, rules stand exactly at the multiples in view of 96 on narrow and 144 on wide papers, all but the blank one, unless closer than four pixels |
| PaperMarks.ColumnsStandAtTheirPitch | crates/protocol/src/paper.rs:358-393 | Columns likewise, on the two squared papers alone |
| PaperMarks.MarginStandsAt | crates/protocol/src/paper.rs:358-393 | The two papers with a margin have it at 288 if that is in view |
| PaperMarks.SquaredKeepsTheRules | crates/protocol/src/paper.rs:28-38 | Squared papers have the very rules of their ruled counterparts |
| PaperMarks.ColumnAtTheMargin | crates/protocol/src/paper.rs:40-46 | A column stands at the margin if and only if it is in view and columns are drawn, below the cap |
| PaperMarks.SwatchIsNeverCulled | crates/protocol/src/paper.rs:405-431 | A swatch of any size is drawable, dense enough for its family, and shows its first rule once half a pitch high |
| PaperMarks.SwatchShowsFourRows | crates/protocol/src/paper.rs:405-431 | A swatch at least 20 pixels high shows four rows from half a row above the first rule; a lower one keeps its rules five pixels apart |
| Canvas.Pen.Color | frontend/src/render.rs:237-243 | The colour is in force afterwards, whether or not it was sent |
| Canvas.Pen.Width | frontend/src/render.rs:245-250 | The width is in force afterwards, whether or not it was sent |
| Canvas.DrawPressureStroke | frontend/src/render.rs:318-348 | The grouped paths ink every segment once, in order, in its own width, with one draw call per run of a width |
| Canvas.OneByOneAt | frontend/src/render.rs:296-317 | The reference: segment i from point i to i+1, in the stroke's colour and its own snapped width |
| Canvas.InkedAsWideAsPressed | frontend/src/render.rs:296-317 | Each segment drawn is within a sixteenth of the mean of its ends' widths on screen, and an eighth's multiple, but for the floor of 0.75 |
| Canvas.PressureEnds | crates/protocol/src/lib.rs:231-236 | Pressure 1 or more, or none, gives the preset width; 0 or less gives 1.5 or a thinner preset |
| Canvas.PressureIsLinear | crates/protocol/src/lib.rs:231-236 | In between, the width is on the straight line from one end to the other |
| Canvas.PressedHarderInksWider | frontend/src/render.rs:307-317 | A segment pressed harder at both ends is never inked thinner |
| Canvas.WithoutPressureOnePath | frontend/src/render.rs:285-290 | Ink without pressure is a single path |
| Canvas.DrawPaper | frontend/src/render.rs:116-163 | The batches ink each mark's own line, colour and floored width, with square ends, one draw call per run of a style |
| Canvas.PaperTakesTwoStrokes | frontend/src/render.rs:131-138 | A page's paper takes at most two draw calls |
| Canvas.MarksSpanTheCanvas | frontend/src/render.rs:116-163 | Each mark spans the canvas at its own place, edge to edge, in its family's colour and width but never under a pixel |
| Canvas.StrokeMayBeVisible | frontend/src/render.rs:257-273 | The bounds loop decides `MayBeVisible` |
| Canvas.CulledIff | frontend/src/render.rs:253-273 | A stroke is culled if and only if it has no point or the box of its points, widened by half its width and 0.75 pixels, is off the canvas |
| Canvas.HalfWidthWithinPad | frontend/src/render.rs:253-256 | Half a segment's snapped and floored width never exceeds the padding on screen |
| Canvas.CulledInkIsOutOfView | frontend/src/render.rs:253-305 | If a stroke is culled, no point of any segment's round-capped band is in the viewport |
| Canvas.InkInViewIsDrawn | frontend/src/render.rs:211-219 | Every segment with ink in view is drawn |
| Canvas.LaterInkIsOnTop | frontend/src/render.rs:196-219 | The ink of later batches lies over that of earlier ones: what is drawn keeps the order |
| Canvas.OneStrokeIsDrawnWhole | frontend/src/render.rs:211-219 | A stroke is drawn whole or not at all |
| Canvas.DrawCanvas | frontend/src/render.rs:165-220 | White and then the grain under everything, then the paper's marks with square ends, then the kept strokes' segments over them with round ends and joins, and nothing else |
| ThumbnailPixels.DrawPaperTexture | crates/server/src/thumbnails.rs:447-493 | Every pixel takes its own blend at the alpha of the delivered pixel its block stands for |
| ThumbnailPixels.Blend | crates/server/src/thumbnails.rs:474-479 | The blend lies between backdrop and grain |
| ThumbnailPixels.SumBlock | crates/server/src/thumbnails.rs:418-427 | The inner loops sum exactly the block under the delivered pixel, within the source |
| ThumbnailPixels.EachPixelIsInOneBlock | crates/server/src/thumbnails.rs:418-427 | Each source pixel is in exactly one block, at one place |
| ThumbnailPixels.TileRepeats | crates/server/src/thumbnails.rs:458-466 | The grain tile lies on the page once every 64 pixels each way |
| ThumbnailPixels.Downsample | crates/server/src/thumbnails.rs:401-437 | Refuses a source if and only if its size is wrong; else each pixel is the rounded mean of its block and premultiplied |
| ThumbnailPixels.MeanIsNearest | crates/server/src/thumbnails.rs:428-430 | Each channel is within half a step of the true mean |
| ThumbnailPixels.GrainByBlocks | crates/server/src/thumbnails.rs:458-466 | All pixels of a block take one alpha, that of their delivered pixel |
| ThumbnailPixels.PaperGround | crates/server/src/thumbnails.rs:292-373 | The ground alone, without the rules and strokes that the same lines rasterize between grain and filter: white fill, grain and box filter in a row give the white delivered surface with the grain laid on it, each pixel at the alpha of its own cell |
| ThumbnailPixels.GrainCommutesWithTheFilter | crates/server/src/thumbnails.rs:439-493 | On blocks of one colour, grain then filter equals filter then grain at delivered size |
| ThumbnailPixels.GrainAlmostCommutes | crates/server/src/thumbnails.rs:401-493 | On any surface, handed to the grain by the code or not, no channel of a delivered pixel depends on the order by more than one step, and none where the tile is clear |
| ThumbnailPixels.GrainNeedNotCommute | crates/server/src/thumbnails.rs:401-493 | The bound is tight: a block, which the code never hands to the grain, whose delivered pixel does depend on it |
| Library.PageList.Apply | frontend/src/library.rs:84-114 | One event moves the list exactly as `Applied` |
| Library.SortOrders | frontend/src/library.rs:116-118 | The sort puts the latest stamp first |
| Library.SortPermutes | frontend/src/library.rs:116-118 | The sort loses and adds no page |
| Library.SortIsStable | frontend/src/library.rs:116-118 | Pages of one stamp keep their order |
| Library.ListStaysSound | frontend/src/library.rs:81-114 | Over any events ids stay unique and the list recent first |
| Library.ListedIffCreatedAndNotDeleted | frontend/src/library.rs:84-92 | After any events exactly the pages created, or there before, and not deleted since are listed |
| Library.CreatedIsListed | frontend/src/library.rs:85-89 | A page created is listed as it came |
| Library.ListedAsItsEventsSay | frontend/src/library.rs:92-113 | Over any events that do not create or delete it, a page keeps all but its stamp and thumbnail, which are the latest and the newest that came |
| Library.NewestIsNewest | frontend/src/library.rs:92-98 | That thumbnail is one that came or was there, and none of them has a later revision |
| Library.OrderOfUpdatesDoesNotMatter | frontend/src/library.rs:99-113 | The same updates in any order leave each page with the latest of its stamps |
| Library.ThumbnailNeverGoesBack | frontend/src/library.rs:92-98 | Over any events that do not create the page anew, its thumbnail's revision never goes down |

## Left out

- Postgres, SQL, async tasks, WebSocket framing and compression: a transaction is one atomic step under the page lock, a broadcast channel a bounded ring with a read index per receiver.
- History: rows are kept in the order they were inserted, so the order of tombstone batches of equal revision in a replay is not modelled; no theorem depends on it.
- Dispatch: page-updated events to the library channel, thumbnail queueing, byte and frame counters, spans and log lines of the handlers.
- PageSystem: one viewer of one page; other viewers reach it only through commits and lease messages, which are unconstrained. A drop and a resubscribe can follow at any time.
- PageSystem.ViewerConverges: needs harmless runs and keys that keep their payload, see Hypotheses; `AnyOrder.ViewerConvergesIff` needs the keys alone.
- PageSystem.PublicationsConvergeIff: needs harmless runs, as it is the shorter form that the general condition takes in them.
- Cursor.CursorIsSound: needs calm runs and keys that keep their payload, see Hypotheses.
- Cursor.CalmViewerConverges: needs runs that are harmless as well.
- Together.TimelySessionsConverge: one viewer; a retry is a new message of its session, checked anew.
- History.ReechoIsStoredInk: needs keys that keep their payload, see Hypotheses.
- Socket: the close frame and its code, frames that are not text, and the reasons logged; the awaits of a send, so a peer that reads slowly delays nothing here.
- Client: timers, tickets and parsing; an attempt is what it delivered and how it ended. The loop's success arm is never reached in the code and is not modelled.
- Hub: the mutexes; each method is one atomic step. The library broadcast channel, and the trace contexts a message carries.
- Leases: ticket text is a parameter; that live tickets are distinct is a hypothesis of the ticket theorem.
- Exporter: the one-fetch-at-a-time flag and the signed-in gate only limit how often a configuration answer comes; here it may come at any await. A batch's body stands for its items, as the encoding is foreign.
- ExportRuns: items arriving after telemetry is off are not counted as arrived, as the source never queues them.
- ThumbnailPixels.PaperGround: rules and strokes are rasterized by a foreign library, so only the ground is stated.
- Telemetry URLs, trace ids, span parenting and the OTLP encoding, which are easy members.
- Canvas: rasterization; a context is what it was told to ink. The claim that a round-joined polyline covers its segments' bands is the canvas's own. Coordinates and widths are reals, so no bit-exact floating-point result is claimed, and the non-finite checks of paper and viewport have nothing to check. Whether the grain's tile could be built is a parameter, the device pixel ratio is left out, and a page's ink is filtered once before it is drawn instead of stroke by stroke.
- Canvas.CulledInkIsOutOfView: assumes a positive scale and a pen width of at least zero, which stroke validation guarantees.
- ThumbnailPixels: the tile's alphas are a parameter, so its hash is not modelled; strokes and rules are rasterized by a foreign library; PNG encoding.
- Library.PageList: closing the open page and the address bar.
- The page CRUD routes, authentication, configuration, retention sweeps across pages, and the Android client.
