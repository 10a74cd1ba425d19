# Italy Trip: a verified model of the offline capture protocol

The Italy Trip app takes photos on phones with bad reception. A capture is written to a durable
queue in the browser, a background uploader sends it over a lossy network again and again, and the
server must end up with the capture exactly once although any answer can be lost and any handler
can crash. While the event runs nobody, not even the photographer, gets a photo back; when it is
over the album opens for good. This project models those machines and proves what they promise.
`dafny verify dfyconfig.toml` checks all of it.

## How it is built

| file | what it holds |
|---|---|
| `Uploader.dfy`, `UploaderInvariants.dfy`, `UploaderHistory.dfy`, `UploaderTheorems.dfy`, `UploaderCaptures.dfy`, `UploaderRuns.dfy`, `UploaderTimer.dfy` | the background uploader as a step relation: one step is the code between two `await`s, with page reloads, timers, folded `drain` calls and every outcome of an upload; what holds in every reached state, what was captured against what is stored and sent, what can happen from any state, and the retry timer |
| `UploaderObject.dfy` | the same uploader as a class with the source's fields and methods; each method segment is proved to be one step, and a whole undisturbed drain is proved as a loop |
| `PhotoQueue.dfy`, `Backoff.dfy` | the durable queue as a class over a map, its due selection and counts; the retry delays and the classification of statuses |
| `PhotoServer.dfy`, `PhotoServerInvariants.dfy`, `PhotoServerTheorems.dfy`, `PhotoServerReplies.dfy`, `PhotoServerUploads.dfy` | any number of concurrent `Upload` handlers and album readers; every statement that touches the database, the store or the clock is a step, and a handler may crash, or its store or database call fail before or after taking effect; why each reply is sent, and what an upload on its own answers and writes |
| `PhotoServerObject.dfy`, `ObjectStore.dfy`, `Events.dfy` | the photo handler, the in-memory object store and the event handler as classes |
| `EndToEnd.dfy`, `EndToEndRuns.dfy` | phone and server together: requests may arrive late, never, or repeatedly, and answers may be lost |
| `ApiClient.dfy`, `RefreshTokens.dfy` | coalesced token refresh in the client, as steps and as a class; the token table and its chains, with each request as one step |
| `Sessions.dfy`, `SessionInvariants.dfy`, `SessionTheorems.dfy`, `SessionRuns.dfy`, `SessionLifetimes.dfy` | many such clients against the refresh endpoint, its look-up, revocation and re-issue as separate steps, with lost calls and failing queries |
| `Download.dfy`, `Slug.dfy`, `Rfc3339.dfy`, `Thumbnail.dfy` | zip entries, slugs, capture times, thumbnail sizes |
| `Basics.dfy`, `Decimal.dfy` | sorting, text order, the album's order, decimal digits |

The invariants are predicates of the few fields each speaks of, so a step that leaves those alone
keeps them at once. An IndexedDB request and the code that runs on its result are one step: by
section 2.7.2 of the Indexed Database API a read created before an overlapping write finishes
before it, and the reverse. What the models remember beyond the source's own state (which captures
were acknowledged or dropped, the send log, who wrote a row, whom a token replaced) is history that
no branch depends on.

## What is not as the source says

Proved as lemmas, with the input or the run that shows it, or with the exact condition:

- The project's README (line 87) says that a lost answer never stores "a second copy". Within an
  event that holds always (`PhotoServerTheorems.AtMostOneRow`, `SuccessRepliesAgree`). Across events
  it does not: in the run of `EndToEndRuns.CaptureCanBeStoredTwice` an answer is lost, and the retry
  reaches a newer event; so it can go for every stored capture (`PendingCanBeStoredTwice`).
- "Those are lost", the notice after a 423 (`uploader.ts:170`), can be wrong: in the run of
  `EndToEndRuns.NoticeCanBeWrong` the photo is stored, its answer lost, and the retry comes too
  late. It is right for a capture none of whose handlers was let in (`EndToEnd.NeverLetInIsNotStored`),
  and can be wrong for each one let in that can still be stored (`EndToEndRuns.LetInCanBeReportedLost`).
- A `drain` call folded into a running drain is sure to lead to a further pass exactly if the drain
  is still in its loop (`UploaderRuns.CallIsServedExactly`); behind the loop it can be swallowed
  (`LateFoldIsSwallowed`). The retry timer is what saves the late one (`UploaderTheorems.NoWakeUpIsLost`).
- `stop` (`uploader.ts:80-92`) clears the retry timer, but a drain that waits for the store in
  scheduleNextRetry arms one all the same. No timer is armed until the next `start` exactly if no
  drain waits there when `stop` is called (`UploaderTimer.StopIsFinalExactly`).
- The spacing of attempts does not count interrupted ones: a page reloaded while an upload waits
  forgets the attempt and can resend at once (`UploaderRuns.ReloadResendsAtOnce`), and then the bound
  fails (`SpacingFailsAcrossReloads`). Without a reload it counts them all
  (`UploaderTheorems.UninterruptedAttemptsAreSpaced`).
- Overlapping `Refresh` calls can fork a token's chain (`SessionRuns.OverlappingRefreshesFork`); it
  takes two calls past their look-up of it at one time (`SessionTheorems.ForkNeedsCrossing`,
  `SessionRuns.CrossingForks`), which coalescing clients never have unless a call is lost that has
  spent, or can spend, its client's cookie (`ChainsWithoutLoss`).
- Such a loss is also what reuse detection needs against an honest client, and all it needs: without
  one it never strikes (`SessionTheorems.ReuseNeedsALoss`), and after any one the client's next
  refresh can revoke every session of its user (`SessionRuns.LossCanEndEverySession`; from the start:
  `ReuseCanHappen`). The app has one shared account.
- `toRfc3339` does not pad the year: reading back works exactly for years 1000 to 9999
  (`Rfc3339.RoundTrip`). The queue's text order is the order of capture exactly under the condition
  in `Rfc3339.TextOrderIsTimeOrderExactly`; across time zones it can fail (`TextOrderFailsAcrossOffsets`).
- `uniqueName` gives distinct names exactly if no name it makes is already in the list
  (`Download.DistinctExactly`); of some lists it does not (`ArbitraryNamesCanCollide`), of the fixed
  shape of the file names it always does (`EntriesAreDistinct`).

## Model

| member | source | states |
|---|---|---|
| UploaderTheorems.NoWakeUpIsLost | frontend/app/lib/uploader.ts:103-142 | in every reachable state that is started and idle, each item still to be tried is held by an enqueue that has yet to call drain, or the retry timer fires no later than the later of its arming and the item's due time |
| UploaderRuns.FoldedCallIsServed | frontend/app/lib/uploader.ts:114-137 | a recorded drain call is followed by a read of the store at or after its time before the running drain leaves its loop, over any further steps without a reload |
| UploaderRuns.LateFoldIsSwallowed | frontend/app/lib/uploader.ts:114-142 | a drain call folded behind the loop, in either of the two waits there, can lead to no further pass: a run ends the drain with `again` still set |
| UploaderRuns.CallIsServedExactly | frontend/app/lib/uploader.ts:114-142 | in every reached state, a drain call is served on every continuation without a reload if and only if the uploader is idle or its drain is still in the loop |
| UploaderRuns.NoPassWithoutACall | frontend/app/lib/uploader.ts:114-142 | over every run there are no more passes over the queue than drain calls, the pass that a folded call still has coming counted in: the loop never goes round on its own |
| UploaderTheorems.NothingVanishes | frontend/app/lib/uploader.ts:144-188 | over every run, a capture whose durable write finished is in exactly one of: the store, acknowledged, dropped; and a stored item has the bytes, type and time recorded for it |
| UploaderCaptures.CapturesAreKeptAsTaken | frontend/app/lib/photoQueue.ts:61-76 | over every run, what an enqueue call was given, the bytes, the time, and the type or image/jpeg for want of one, is what is recorded for its id, what the queue holds however often it was tried and written back, and what every upload of it sends |
| UploaderCaptures.OnlyCapturesAreSent | frontend/app/lib/uploader.ts:103-158 | whatever is stored or was ever sent, some enqueue call brought |
| UploaderCaptures.WrittenCaptureIsDue | frontend/app/lib/photoQueue.ts:61-93 | the durable write stores exactly that, with no attempt made, not failed, and due at once, and changes no other item |
| UploaderTheorems.OneUploadAtATime | frontend/app/lib/uploader.ts:110-128 | at most one drain runs, so sends never overlap, and `draining` names it |
| UploaderTheorems.PassesSendTheirSnapshot | frontend/app/lib/uploader.ts:130-142 | each pass sends a prefix of the sorted due snapshot of the store it read, each item once, and all of it unless a reload cut it short; an item is in the snapshot exactly if it has not failed and its next attempt is not after the read |
| UploaderTheorems.AttemptsAreSpaced | frontend/app/lib/uploader.ts:181-187 | over any run and any triggers the k-th attempt of a capture is at least 2000*(2^(k-1)-1) ms after its first for k <= 9 and at least 510000+300000*(k-9) ms for k > 9, not counting attempts that a page reload interrupted |
| UploaderTheorems.UninterruptedAttemptsAreSpaced | frontend/app/lib/uploader.ts:181-187 | without a reload that bound holds for every attempt: nothing is discounted |
| UploaderRuns.ReloadResendsAtOnce | frontend/app/lib/uploader.ts:144-158 | wherever an upload waits for its answer, a reload lets the same item go out again with no time passed |
| UploaderRuns.CutAttemptKeepsNoDistance | frontend/app/lib/uploader.ts:144-158 | wherever a capture's first attempt has just been made, a reload can have its second made 0 ms later, so the bound without discount is false there |
| UploaderRuns.SpacingFailsAcrossReloads | frontend/app/lib/uploader.ts:144-158 | a run from the start in which it is false |
| UploaderTheorems.StatusCountsAreRight | frontend/app/lib/uploader.ts:210-213 | once counted, the cached counts are the numbers of stored items that have not failed and that have, whenever no drain runs and no enqueue has its recount before it |
| UploaderTheorems.FinalIsNeverResent | frontend/app/lib/uploader.ts:164-179 | a capture marked failed, acknowledged or dropped stays so and is never sent again, whatever happens next |
| UploaderTheorems.WriteBackIsLocal | frontend/app/lib/uploader.ts:177-187 | writing back a snapshot item changes only that item, which is still stored, resurrects none, and counts one attempt |
| UploaderTheorems.FateIsCarriedOut | frontend/app/lib/uploader.ts:144-188 | in every state of a run, whatever the page does between an answer and the write it leads to, exactly that capture is removed after a 2xx or a 423, and else written back with one attempt more and the error's message, given up exactly on another 4xx, its next attempt 2000 ms after the answer doubled per earlier failure and capped at five minutes |
| UploaderTheorems.DropsAreAnnounced | frontend/app/lib/uploader.ts:164-173 | whenever a capture was dropped the notice is showing until it is dismissed or the page reloads |
| UploaderTheorems.NoticeComesBackForANewDrop | frontend/app/lib/uploader.ts:220-223 | dismissing takes the notice down, and over every continuation it is up again only if a further capture has been dropped |
| UploaderTheorems.TimerDelayIsBounded | frontend/app/lib/uploader.ts:201-207 | the delay given to setTimeout lies between 0 and the backoff cap in every reachable state |
| UploaderTimer.TimerIsExact | frontend/app/lib/uploader.ts:190-208 | in every reached state without a running drain, a set timer fires exactly when some item still to be tried is due, or at its arming if that is later, and no item wants it earlier but one enqueued since whose drain call is still to come |
| UploaderTimer.ArmedForTheEarliest | frontend/app/lib/uploader.ts:197-207 | every step that arms the timer arms it at the present time for the earliest of the stored items still to be tried, as the later of now and its next attempt |
| UploaderTimer.TimerFindsWork | frontend/app/lib/uploader.ts:204-207 | a drain that the timer starts reads a due snapshot that is not empty, whatever the page does before the read |
| UploaderTimer.StopIsFinalExactly | frontend/app/lib/uploader.ts:80-92 | after stop no timer is armed on any continuation up to the next start, if and only if no drain was waiting for the store in scheduleNextRetry |
| UploaderRuns.DrainIsNeverStuck | frontend/app/lib/uploader.ts:130-142 | every wait of a running drain has a step that ends it |
| UploaderRuns.ReloadOpensAFreshPage | frontend/app/lib/uploader.ts:40-54 | after a reload, wherever it comes, the page is as when it was first opened |
| UploaderRuns.PendingCanBeSent | frontend/app/lib/uploader.ts:66-78 | from every reached state each capture still to be tried can be sent as it is stored: a new page is opened when it is due, and its drain gets to it through any others before it |
| UploaderTheorems.InvStep | frontend/app/lib/uploader.ts:66-224 | every step of the uploader keeps the whole invariant |
| UploaderTheorems.InvAfter | frontend/app/lib/uploader.ts:66-224 | every run keeps the whole invariant |
| UploaderObject.Uploader.constructor | frontend/app/lib/uploader.ts:40-54 | a new uploader is in the initial state and satisfies the invariant |
| UploaderObject.Uploader.Drain | frontend/app/lib/uploader.ts:114-128 | the method is the step relation's drain call: fold into the running drain or start one |
| UploaderObject.Uploader.Next | frontend/app/lib/uploader.ts:132-140 | the loop head sends the next item, takes another pass, or leaves |
| UploaderObject.Uploader.DueArrives | frontend/app/lib/uploader.ts:133-135 | the snapshot read is exactly the due items of the store, and the segment is one step that keeps the invariant |
| UploaderObject.Uploader.UploadSettles | frontend/app/lib/uploader.ts:144-158 | the continuation of an upload is one step that keeps the invariant |
| UploaderObject.Uploader.HandleFailure | frontend/app/lib/uploader.ts:160-188 | the failure branches compute what the step relation says, field by field |
| UploaderObject.Uploader.RemoveDone | frontend/app/lib/uploader.ts:153-173 | removal from the store, the notice after a 423, and the move to the next item are one step that keeps the invariant |
| UploaderObject.Uploader.WriteBackDone | frontend/app/lib/uploader.ts:177-187 | the write-back and the move to the next item are one step that keeps the invariant |
| UploaderObject.Uploader.RefreshCounts | frontend/app/lib/uploader.ts:210-218 | the status takes the store's counts and nothing else changes |
| UploaderObject.Uploader.CountsArrive | frontend/app/lib/uploader.ts:138-196 | recount, cleared timer, and the end of a stopped drain are one step that keeps the invariant |
| UploaderObject.Uploader.AllArrive | frontend/app/lib/uploader.ts:191-208 | the timer is armed exactly if some stored item has not failed, now, for the later of now and the earliest next attempt, and the drain ends; one step that keeps the invariant |
| UploaderObject.Soonest | frontend/app/lib/uploader.ts:198-201 | the loop finds the least retry time of the items that have not failed, and nothing exactly when all failed |
| UploaderObject.Uploader.Enqueue | frontend/app/lib/uploader.ts:103-104 | the pending item has the bytes, time and type given, never tried, and its durable write starts; one step that keeps the invariant |
| UploaderObject.Uploader.WriteDone | frontend/app/lib/photoQueue.ts:61-76 | the capture is stored under its id; one step that keeps the invariant |
| UploaderObject.Uploader.EnqueueDone | frontend/app/lib/uploader.ts:105-108 | recount, then call drain; one step that keeps the invariant |
| UploaderObject.Uploader.Start | frontend/app/lib/uploader.ts:67-78 | starting once drains, starting again does nothing; one step that keeps the invariant |
| UploaderObject.Uploader.Stop | frontend/app/lib/uploader.ts:80-92 | stopping clears the flag and the timer; one step that keeps the invariant |
| UploaderObject.Uploader.OnTrigger | frontend/app/lib/uploader.ts:94-100 | each outside trigger is a drain call |
| UploaderObject.Uploader.TimerFires | frontend/app/lib/uploader.ts:204-207 | the timer's callback clears the field, and starts a drain or folds into the running one |
| UploaderObject.Uploader.DismissMessage | frontend/app/lib/uploader.ts:221-223 | only the notice is cleared |
| UploaderObject.Uploader.DrainAlone | frontend/app/lib/uploader.ts:110-188 | a drain left alone ends idle, having sent exactly the due items of its start once each, in order, each when the answer before it has come, with the store as the answers leave it at the times they come |
| UploaderObject.Uploader.SendAll | frontend/app/lib/uploader.ts:134-136 | the inner loop over a snapshot sends each item when the one before is answered, however long that took, and applies each answer |
| UploaderObject.EachItemMeetsItsAnswer | frontend/app/lib/uploader.ts:144-188 | after a drain each item of the snapshot is left as its own answer says, and no other item of the store changed |
| Backoff.BackoffIsMonotoneAndCapped | frontend/app/lib/uploader.ts:12-20 | delays never shrink with the number of attempts and stay between 2 s and 5 min |
| Backoff.WaitClosedForm | frontend/app/lib/uploader.ts:18-20 | the sum of the first k-1 delays in closed form, for every k |
| PhotoQueue.DueIsSnapshot | frontend/app/lib/photoQueue.ts:88-93 | filter and sort return the store's due items, those that have not failed and whose next attempt is not after now, all of them, once each, oldest first, whatever order the store lists them in |
| PhotoQueue.CountMatchesStore | frontend/app/lib/photoQueue.ts:108-114 | counting the listed items gives the number of stored captures that have, and have not, failed |
| PhotoQueue.Queue.Enqueue | frontend/app/lib/photoQueue.ts:61-76 | an item with the bytes, time and type given, never tried, is stored under its id, replacing nothing else |
| PhotoQueue.Queue.Put | frontend/app/lib/photoQueue.ts:95-97 | the item is stored under its id, nothing else changes |
| PhotoQueue.Queue.Remove | frontend/app/lib/photoQueue.ts:99-101 | exactly this id leaves the store |
| PhotoQueue.Queue.All | frontend/app/lib/photoQueue.ts:83-85 | every stored item once |
| PhotoQueue.Queue.DueItems | frontend/app/lib/photoQueue.ts:88-93 | the due snapshot of the store |
| PhotoQueue.Queue.Counts | frontend/app/lib/photoQueue.ts:108-114 | the store's pending and failed counts |
| EndToEnd.NoCaptureIsLost | frontend/app/lib/uploader.ts:144-188 | over every interleaving of phone, network and server, a photo whose durable write finished is queued as it was taken, or is on the server with the bytes and time its enqueue call was given, or was dropped after a handler of it answered 423 for an event whose end had passed |
| EndToEnd.RemovalAfterSuccessIsSafe | frontend/app/lib/uploader.ts:145-154 | the phone removes a capture after a 2xx only when the server has its row |
| EndToEnd.CapturesAreStoredOncePerEvent | backend/internal/photos/upload.go:84-172 | end to end a capture has at most one row per event and all its rows hold the same bytes |
| EndToEndRuns.PendingCanBeStoredTwice | backend/internal/photos/upload.go:86-97 | from every reached state with a pending capture on the server, its event can end and a new one start, and the phone's retry is stored again: two rows with the capture's bytes and time, in two events |
| EndToEndRuns.CaptureCanBeStoredTwice | backend/internal/photos/upload.go:86-97 | a run from the start, with one lost answer, that ends so |
| EndToEnd.RowsAreAsTaken | backend/internal/photos/upload.go:126-152 | over every interleaving, whoever else uploads, a row under the client id of a photo the phone took has the time it was taken with and the number of its bytes, and its object is in the store with exactly these bytes |
| EndToEnd.WrittenWasTaken | frontend/app/lib/uploader.ts:103-108 | and every capture whose durable write finished was taken: some enqueue call brought it |
| EndToEndRuns.PendingCanBeAcknowledged | frontend/app/lib/uploader.ts:144-158 | from every reached state, while an event runs, each pending capture can be stored with its own bytes and time and acknowledged |
| EndToEnd.RepliesAreUnderstood | frontend/app/lib/apiClient.ts:21-43 | each reply has its own status, 201, 200, 423, 404, 401, 413, 400, 502 or 500, and the client's ok, locked, permanent and retry classes are exactly the server's success replies, its lock, its 400, 401, 404 and 413, and its 500 and 502 |
| EndToEnd.NeverLetInIsNotStored | frontend/app/lib/uploader.ts:164-173 | when the notice is right: over every run, a capture none of whose handlers was ever let in has no row in any event |
| EndToEndRuns.LetInCanBeReportedLost | frontend/app/lib/uploader.ts:164-173 | when it can be wrong: wherever a handler of a pending capture was let in and can still store it, some run stores the capture and then drops it with the notice up |
| EndToEndRuns.PendingCanBeReportedLost | frontend/app/lib/uploader.ts:164-173 | from every reached state every pending capture can come to be stored and then reported lost |
| EndToEndRuns.NoticeCanBeWrong | frontend/app/lib/uploader.ts:164-173 | a run from the start that ends with a capture dropped, the notice up, and the capture's bytes and time on the server |
| PhotoServerTheorems.AtMostOneRow | backend/internal/postgres/migrations/00002_create_event_and_photos.sql:29 | for any number of concurrent handlers, crashes and retries there is at most one row per event and client id |
| PhotoServerTheorems.SuccessRepliesAgree | backend/internal/photos/upload.go:84-172 | all success replies for one capture in one event carry the id of its row, and at most one handler answers 201 |
| PhotoServerTheorems.RetriesStoreNothing | backend/internal/photos/upload.go:84-189 | whatever runs beside it and whatever fails, a handler of a stored capture, a retry or the loser of the race, writes no row, and any success it replies is 200 with the stored id |
| PhotoServerTheorems.RaceLoserIsADuplicate | backend/internal/photos/upload.go:174-189 | such a success is possible for every handler about to insert a stored capture: it answers 200 with the winner's id, and its objects are orphans |
| PhotoServerTheorems.RetryIsADuplicate | backend/internal/photos/upload.go:84-97 | and for every retry into a running event: it is answered 200 with the stored id and changes no row and no object |
| PhotoServerTheorems.UploadIsStored | backend/internal/photos/upload.go:46-172 | an undisturbed upload of a new capture into a running event is answered 201 and adds exactly its row |
| PhotoServerTheorems.NewEventStoresTwice | backend/internal/photos/upload.go:86-97 | on the server alone: whenever a capture is stored and its event over, starting a new event and retrying stores it a second time |
| PhotoServerTheorems.LateUploadsAreRefused | backend/internal/photos/handler.go:83-93 | over every continuation, an upload not let in by its event's end never is: it replies no success and writes no row |
| PhotoServerTheorems.LateRetryIsRefused | backend/internal/photos/handler.go:83-93 | after the end any request, of a stored capture too, can be answered 423, and nothing but its own handler changes |
| PhotoServerTheorems.UploadIsAdmitted | backend/internal/photos/handler.go:83-93 | the guard lets a well-formed request into a running event |
| PhotoServerTheorems.RowsAndObjectsAgree | backend/internal/photos/upload.go:126-152 | in every reachable state each row's two objects exist, its photo holds the bytes its upload sent, and its size is their number |
| PhotoServerTheorems.RowsShareNoKey | backend/internal/storage/storage.go:37-40 | distinct rows share no storage key, and photo and thumbnail keys never coincide |
| PhotoServerTheorems.ObjectsAreAccountedFor | backend/internal/photos/upload.go:126-137 | each stored object belongs to a row, to a handler at work, or to an abandoned id that no row names |
| PhotoServerTheorems.RowsAndObjectsArePermanent | backend/internal/photos/upload.go:126-152 | no later step changes or removes a row or an object, and no abandoned id becomes a row |
| PhotoServerTheorems.OnlyTheLatestEventCanRun | backend/internal/events/handler.go:95-112 | in every reachable state every event but the latest is over |
| PhotoServerTheorems.NothingLeavesARunningEvent | backend/internal/photos/album.go:83-117 | whatever a list, a zip or an Original request of any photo id sends belongs to an event whose end has come by that moment |
| PhotoServerTheorems.RowsWereAdmittedInTime | backend/internal/photos/handler.go:83-93 | every row's handler was let in by the guard at a time before the end of the row's own event |
| PhotoServerTheorems.RepliesFollowTheClock | backend/internal/photos/handler.go:83-93 | whoever was let in, as every success was, was let in at a time before its event's end; a 423 came at the end or later, and let nobody in |
| PhotoServerReplies.UploadIsLetInExactly | backend/internal/events/service.go:24-32 | an upload that found the current event, whatever else runs before its guard reads the clock, is let in if and only if the clock shows a time before that event's end, and answered 423 if and only if not: at exactly the end it is over |
| PhotoServerReplies.AlbumOpensExactly | backend/internal/photos/handler.go:67-80 | an album request, whatever else runs before its guard reads the clock, passes if and only if the end of the event that was current when it came has passed by then |
| PhotoServerReplies.RepliesHaveTheirCause | backend/internal/photos/upload.go:46-172 | over every run, 401 and 413 answer exactly the requests let in without a user or over the limit, 400 only a form or an image that does not parse, 502 and every success only a request with nothing wrong, 404 and 423 only one not let in |
| PhotoServerUploads.UploadAlone | backend/internal/photos/upload.go:46-189 | for every state, request and way its calls can go, an upload with nothing in between answers what its first failing check calls for, else 200 with the stored photo's id, else 201, and writes exactly the row and the two objects that its calls let it write |
| PhotoServerTheorems.LateRowsComeFromHandlersInFlight | backend/internal/photos/upload.go:46-152 | every row added to an event after its end was written by a handler admitted before and still at work, and no handler joins them |
| PhotoServerTheorems.AlbumFreezes | backend/internal/photos/upload.go:46-152 | after the end an album grows by at most the number of handlers then in flight, and not at all without any |
| PhotoServerInvariants.InvStep | backend/internal/photos/upload.go:46-189 | every step of every handler and reader, crashes and faults included, keeps the server's invariant |
| PhotoServerObject.PhotoHandler.LoadEvent | backend/internal/photos/handler.go:54-65 | goes on to the guard with the event created last, answers 404 exactly without any and 500 exactly on a failing query; one step that keeps the invariant |
| PhotoServerObject.PhotoHandler.RequireRunning | backend/internal/photos/upload.go:47-82 | lets the request in exactly if the time is before its event's end, answers 423 exactly if not, and goes on to the lookup exactly with a well-formed one; one step that keeps the invariant |
| PhotoServerObject.PhotoHandler.RequireUnlocked | backend/internal/photos/handler.go:70-80 | lets the reader pass exactly if its event's end has come |
| PhotoServerObject.PhotoHandler.FindPhotoByClientId | backend/internal/postgres/sqlc/photo_queries.sql:10-12 | finds a row of this capture in this event, and none exactly when there is none |
| PhotoServerObject.PhotoHandler.LookUp | backend/internal/photos/upload.go:84-128 | the duplicate answer, the decoding error or a fresh photo id: one step that keeps the invariant |
| PhotoServerObject.PhotoHandler.PutPhoto | backend/internal/photos/upload.go:130-133 | storing the original, or 502: one step that keeps the invariant |
| PhotoServerObject.PhotoHandler.PutThumb | backend/internal/photos/upload.go:134-137 | storing the thumbnail, or 502: one step that keeps the invariant |
| PhotoServerObject.PhotoHandler.CreatePhoto | backend/internal/photos/upload.go:139-172 | inserting the row under the uniqueness constraint: one step that keeps the invariant |
| PhotoServerObject.PhotoHandler.ResolveRace | backend/internal/photos/upload.go:174-189 | re-reading the winner's row: one step that keeps the invariant |
| PhotoServerObject.PhotoHandler.List | backend/internal/photos/album.go:35-73 | the reply holds exactly the event's photos, each once, by time and then id, each of an event that is over; a failing query or a key that cannot be signed gives its error and no photo |
| PhotoServerObject.PhotoHandler.FetchOriginal | backend/internal/photos/album.go:83-120 | each error has its reply: an id that does not parse, a failing look-up, an unknown id, a failing read; otherwise exactly the bytes its upload brought are sent, of an event that is over |
| PhotoServerObject.PhotoHandler.Upload | backend/internal/photos/upload.go:46-172 | from start to reply, the method with its early returns answers and writes exactly what the decision of UploadAlone says, and overwrites no row and no object |
| Events.EventsHandler.Create | backend/internal/events/handler.go:77-125 | refuses a backwards interval, and a second event before the end of the first, and without errors nothing else; otherwise appends the event with the times given and makes it the creator's active one; whatever query fails, past events stay over and no second one runs |
| ObjectStore.KeysAreApart | backend/internal/storage/storage.go:37-40 | both key functions are injective and their ranges are disjoint |
| ObjectStore.Fake.Put | backend/internal/storage/fake.go:40-54 | a failing Put changes nothing, a working one stores exactly body and type under its key |
| ObjectStore.Fake.Open | backend/internal/storage/fake.go:68-85 | succeeds exactly for a stored key, with its body, type and length |
| ObjectStore.Fake.Keys | backend/internal/storage/fake.go:96-105 | every key once, sorted |
| ApiClient.RefreshIsSingleFlight | frontend/app/lib/apiClient.ts:83-99 | over any interleaving of requests at most one refresh is out, and whoever waits, waits for it |
| ApiClient.AtMostTwoFetches | frontend/app/lib/apiClient.ts:106-130 | each request fetches its own path at most twice, and the second time only behind a refresh that it waited for and that succeeded |
| ApiClient.WaitersResumeFaithfully | frontend/app/lib/apiClient.ts:117-130 | a waiter retries with exactly the token its refresh stored, or returns its own original expired 401 and leaves no token |
| ApiClient.OnlyAFailedRefreshGivesUp | frontend/app/lib/apiClient.ts:111-130 | a request returns its first response without any refresh exactly if that is not a 401 whose token expired, and such a one only after the refresh it waited for failed |
| ApiClient.ResponsesAreTheServers | frontend/app/lib/apiClient.ts:106-130 | whatever a request returns, the server answered to that very request |
| ApiClient.FirstFetchCarriesTheToken | frontend/app/lib/apiClient.ts:54-57 | over every run, a request begun after a login or a refresh that succeeded, and before the token changes again, is sent with exactly the token of that login or refresh, and one begun after a failed refresh has cleared it is sent with none |
| ApiClient.FirstFetchCarriesTheStoredToken | frontend/app/lib/apiClient.ts:54-57 | and before any change, with the token stored when the page was opened |
| ApiClient.Client.RefreshToken | frontend/app/lib/apiClient.ts:83-99 | joins the running refresh or starts one |
| ApiClient.Client.FetchWithRefresh | frontend/app/lib/apiClient.ts:106-111 | the first fetch carries exactly the stored token; one step that keeps the invariant |
| ApiClient.Client.ResponseArrives | frontend/app/lib/apiClient.ts:111-115 | only the first fetch's 401 is looked into; one step that keeps the invariant |
| ApiClient.Client.BodyIsRead | frontend/app/lib/apiClient.ts:117-123 | only an expired token leads to a refresh; one step that keeps the invariant |
| ApiClient.Client.RefreshSettles | frontend/app/lib/apiClient.ts:89-96 | a settled refresh stores its token, if any, and clears the field; one step that keeps the invariant |
| ApiClient.Client.WaiterResumes | frontend/app/lib/apiClient.ts:122-130 | retry or give up; one step that keeps the invariant |
| SessionTheorems.ReuseNeedsALoss | backend/internal/users/handler.go:94-151 | with coalescing clients, over every interleaved run, the "already used" branch is reached only after a call was lost that had spent or could spend its client's cookie, or failed after revoking it |
| SessionRuns.LossCanEndEverySession | backend/internal/users/handler.go:94-151 | and every such loss can lead to it: from every reached state, each step of that kind, the connection breaking before, within or after the server's work or an error after the revocation or in the re-issue, has a continuation that finds the client's cookie reused and revokes every token of its user |
| SessionRuns.ReuseCanHappen | backend/internal/users/handler.go:112-120 | a run from the start, with one client and one broken connection, that ends so |
| SessionTheorems.CookiesStayLive | backend/internal/users/handler.go:94-180 | until such a loss each cookie is an unrevoked token issued to that very client or is being replaced by its one refresh, and no two clients have the same cookie |
| SessionTheorems.OneCallPerToken | backend/internal/users/handler.go:94-151 | until such a loss two calls carry one token only when it has expired and neither has been looked up |
| SessionTheorems.OneFlightPerClient | frontend/app/lib/apiClient.ts:83-99 | over every run in which no connection breaks a client never has two refresh calls under way |
| SessionTheorems.ChainsWithoutLoss | backend/internal/users/handler.go:101-151 | over every interleaved run without such a loss, a token has at most one successor, and a token with one is revoked |
| SessionTheorems.ForkNeedsCrossing | backend/internal/users/handler.go:101-148 | over every interleaved run, a second successor, or a successor of a token still live, needs two calls past their look-up of it at one time |
| SessionRuns.CrossingForks | backend/internal/users/handler.go:101-148 | and wherever two calls are past their look-up of one token, it can get two live successors |
| SessionRuns.OverlappingRefreshesFork | backend/internal/users/handler.go:101-148 | a run from the start, with one client and one broken connection, in which a token gets two live successors |
| SessionRuns.UndisturbedRefreshIsOneStep | backend/internal/users/handler.go:94-151 | the interleaved refresh, run alone, is the one-step refresh, however its queries go: same table, same change of the cookie, granted alike |
| SessionLifetimes.MintedTokenLasts | backend/internal/users/handler.go:94-173 | over every interleaved run, a token that a login or the re-issue of a refresh issued at time n is found good by a later look-up if and only if no step has spent it and it is at most the time to live old; it counts as reuse if and only if it is spent, and is refused otherwise; it stays its user's |
| SessionLifetimes.AnswersReachTheirClient | backend/internal/users/handler.go:94-180 | whenever the answer of a refresh arrives, whatever ran in between, its client has the new cookie after a success, none after a refusal, and else the one it had; its refresh succeeds, with the token of the answer, exactly if the answer is a success that parses; no other client changes |
| RefreshTokens.RotationFormsChains | backend/internal/users/handler.go:101-151 | over any history of logins and refreshes each token has at most one successor, and a token with one is revoked |
| RefreshTokens.LiveTokensAreBoundedByLogins | backend/internal/users/handler.go:83-151 | a user never has more unrevoked tokens than logins |
| RefreshTokens.SpentTokenStaysSpent | backend/internal/users/handler.go:112-120 | a revoked token presented after any further logins and refreshes is found reused and leaves its user with none |
| RefreshTokens.TokenWorksUntilSpent | backend/internal/users/handler.go:94-151 | after any history of logins and refreshes a live token is granted a refresh if and only if no request rotated it away or presented a revoked token of its user, and it has not expired |
| RefreshTokens.IssuedTokenLasts | backend/internal/users/handler.go:122-173 | over every history, a token issued at time n by a login or a granted refresh is granted later if and only if it is unspent and at most the time to live old, found used if and only if spent, and answered as expired otherwise, for the user it was issued to |
| RefreshTokens.FailedRefreshKeepsOrSpends | backend/internal/users/handler.go:101-151 | a refresh that fails leaves the cookie, adds no live token for anybody, and leaves the table as it was or the presented token revoked |
| RefreshTokens.AuthHandler.Login | backend/internal/users/handler.go:83-86 | a login adds one live token for its user, good for the time to live from now, and sets it as the cookie |
| RefreshTokens.AuthHandler.Refresh | backend/internal/users/handler.go:94-151 | the method with its early returns and its failing queries computes the one-step refresh: missing, invalid, used and expired exactly when the table says so, the cookie cleared exactly for the last three, and a grant leaves the old token revoked and the new one good for the time to live from now |
| RefreshTokens.AuthHandler.RevokeRefreshTokensForUser | backend/internal/postgres/sqlc/refresh_token_queries.sql:15-20 | exactly the user's tokens become revoked |
| Download.ListIsTheAlbum | backend/internal/postgres/sqlc/photo_queries.sql:15-20 | the list holds exactly the event's rows, each as often as the table, ordered by time and then id |
| Download.DistinctExactly | backend/internal/photos/download_all.go:105-118 | for every list of names, the entries are pairwise distinct if and only if numbering gives no photo a name that is itself in the list |
| Download.EntriesAreDistinct | backend/internal/photos/download_all.go:102-118 | so for every list of rows the entry names, numbered ones included, are pairwise distinct |
| Download.ArbitraryNamesCanCollide | backend/internal/photos/download_all.go:105-118 | an instance where the condition fails: "a.jpg", "a-2.jpg", "a.jpg" give two entries of one name |
| Download.NumberingIsInjective | backend/internal/photos/download_all.go:105-118 | the file name and its number can be read off an entry name |
| Download.NumbersCanBeReadOff | backend/internal/photos/download_all.go:105-118 | of any two names at all, numbered from 2 on, equal results come from equal names and numbers |
| Download.NameTable.UniqueName | backend/internal/photos/download_all.go:105-118 | counts the name and numbers it by its count |
| Download.ArchiveNamesAreDistinct | backend/internal/photos/download_all.go:46-69 | no two entries of a written archive, the partial one included, have the same name |
| Download.DownloadAll | backend/internal/photos/download_all.go:34-69 | a failing query gives no archive; otherwise the complete entries are the photos of the event's album, by time and then id, up to the first that is missing or fails, whole, under their own names, and one partial entry with what was written follows exactly when copying stopped midway |
| Download.FileNamesSortLikeTheAlbum | backend/internal/photos/album.go:122-124 | file names sort as the photos were taken, and coincide exactly within one second |
| Download.FileNameTellsTheTime | backend/internal/photos/album.go:122-124 | for the years 0 to 9999 the date and the time of day in UTC, to the second, can be read off a file name at fixed places behind "italy-" |
| Slug.Slugify | backend/internal/photos/download_all.go:81-99 | the streaming loop gives the alphanumeric words of the lowered name joined by single dashes, or "photos" without any, and that is the kept characters with one dash wherever others lie between two of them |
| Slug.SlugKeepsLettersAndDigits | backend/internal/photos/download_all.go:81-99 | a slug has exactly the name's letters and digits of ASCII, and the two characters that lower to one, lowered and in order, with one dash between two of them if and only if something else stood there; it is the fallback "photos" if there are none |
| Slug.ZipFilename | backend/internal/photos/download_all.go:77-79 | the archive is named after the event's slug |
| Slug.StreamingRefinesSimple | scripts/init.py:39-43 | the streaming slug equals strip, lowercase, collapse, strip, but for "photos" where the simple form has none, if and only if no dotted capital I stands right before a letter or digit |
| Slug.SlugShape | backend/internal/photos/download_all.go:81-99 | a slug is one or more alphanumeric words joined by single dashes |
| Slug.SlugIsIdempotent | backend/internal/photos/download_all.go:81-99 | slugifying a slug changes nothing |
| Rfc3339.RoundTrip | frontend/app/lib/capture.ts:74-86 | reading back a printed time by section 5.6 of RFC 3339 gives the same fields and offset exactly for years 1000 to 9999 |
| Rfc3339.SecondsTick | frontend/app/lib/capture.ts:74-86 | the time line that printed times are compared on is the Gregorian calendar's: it advances by exactly one from the fields of each second to those of the next, across minutes, hours, months and leap years |
| Rfc3339.TextOrderIsLocalOrder | frontend/app/lib/capture.ts:74-86 | printed times sort by the device's clock, and equal clocks by the offset's text |
| Rfc3339.TextOrderIsTimeOrderExactly | frontend/app/lib/photoQueue.ts:88-93 | sorting the texts sorts the instants exactly when the difference of the clocks outweighs that of the offsets |
| Rfc3339.TextOrderIsTimeOrder | frontend/app/lib/photoQueue.ts:88-93 | with one offset the text order is the chronological order (section 5.1 of RFC 3339) |
| Rfc3339.QueueOrderIsCaptureOrder | frontend/app/lib/photoQueue.ts:87-93 | the due snapshot of captures printed with one offset is in the order they were taken |
| Rfc3339.TextOrderFailsAcrossOffsets | frontend/app/lib/photoQueue.ts:88-93 | two captures printed with different offsets that sort in the wrong order |
| Thumbnail.FitIsBoundedAndFaithful | backend/internal/images/thumbnail.go:99-121 | with every product and quotient rounded to float64, an image with an edge over the bound gets a longer edge of exactly the bound, edges stay in 1..bound and never grow, each is a nearest pixel count of the exact scaling or the clamp 1, and their order is kept; other images are untouched |
| Thumbnail.RefitChangesNothing | backend/internal/images/thumbnail.go:99-121 | fitting twice is fitting once |

## Left out

Assumptions the proofs make, because the code does not establish the stronger statement:

- Clocks never run backwards, on the phone and on the server; the two clocks are unrelated.
- One uploader per database and one client per cookie jar: several tabs are not modelled.
- Photo ids and client ids are fresh, and a photo id was not asked for before it was generated (it is random); client ids are sent in canonical form, so the server's re-formatting of the UUID changes nothing.
- Creating an event is one step of the server's machine; two interleaved Create calls are not modelled. Its check reads the clock once, in that step.
- IndexedDB requests succeed; a failing local store is not modelled. A page reload may come at any step and forgets everything but the store.

What the model does not have:

- UploaderTheorems.AttemptsAreSpaced: attempts that a page reload interrupted are not counted, because UploaderRuns.ReloadResendsAtOnce shows that the code keeps no distance after them.
- UploaderTheorems.StatusCountsAreRight: says nothing before the first count after a page load, when the status shows zeros.
- Thumbnail.FitIsBoundedAndFaithful: for positive edges below 2 to the power of 24, which decoding guarantees, and for any rounding with the error, order and exact integers that section 4.3 of IEEE 754 asks of float64; on an exact half either neighbour may result.
- Slug.Slugify: of lower-casing only what a slug can tell: the ASCII letters, the Kelvin sign and the dotted I; all other characters lower to separators, in Go and in Python alike.
- Rfc3339.RoundTrip: the offset is a whole number of minutes below a day, and seconds run to 59.
- Download.FileNamesSortLikeTheAlbum: for years 0 to 9999; outside them the four-digit year has more digits or a sign. Distinctness holds for every year.
- HTTP, multipart parsing, JSON, CORS, migrations, the zip byte format and the S3 client: a call succeeds, fails before its effect, fails after it, or its answer is lost. What authentication, the size limit and the form make of an upload is one field of the request.
- RefreshTokens.TokenWorksUntilSpent: with each request as one step and no failing query; SessionLifetimes.MintedTokenLasts has the interleaved and failing ones.
- Password checks, token signing and hashing: tokens stand for their hashes.
- JPEG decoding and resampling: a request carries its thumbnail or none.
- The signed URLs themselves, the events page, the event's name and its photo count.
- `localeCompare` is the order of code units with "-" before "+", as in the root collation; that is what it is on the digits, signs and separators of these texts, not on arbitrary text or in every locale.
- Expiry of cookies in the browser: an expired cookie is presented and refused, where a browser would not present it.
- React components, the camera, the slideshow and the wake lock: user interface with shallow logic.
- Listener notification in `setStatus`: listeners only read.
- Fixed-size integers: attempt counts, sizes and times are unbounded here; doubling is cut off at five minutes long before it could overflow.
