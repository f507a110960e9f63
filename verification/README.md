# FileMaker extension: a verified model

A Dafny model of the parts of the FileMaker extension whose guarantees span several functions or a whole run, with
proofs of those guarantees. `dafny verify dfyconfig.toml` checks all of it.

Every protocol is a state machine on plain values: one step for each stretch of code between two awaits, and a run is
any list of events, so an adversary picks the order, the replies and the clock. The classes hold the fields of the
source, and each of their methods is proved to make one step of that machine; the lemmas about runs then speak about
the classes too. The pure algorithms are functions, and the loops of the source are methods proved equal to them.

* `RetryProtocol.dfy`: updating one row against a server that may lose replies, with optimistic locking by modId.
* `BatchScheduler.dfy`: the work queue of a batch update, which drives `CircuitBreaker.dfy` and
  `AdaptiveConcurrency.dfy` with the signals of its rows.
* `ExportPaging.dfy`, `Csv.dfy`: the paged export and the CSV reader.
* `SignIn.dfy`: session renewal, the pause after rejected credentials, and the wait for a free session, for one profile.
* `AiSession.dfy`: record quota, sliding windows, refusal log and consent dialogs of the AI tools.
* `RateLimiter.dfy`: the token bucket of the bridge, over real numbers.
* `FormLayout.dfy`, `RuntimeLayout.dfy`: arranging a form in the designer, and moving rows for taller data.
* `CanonicalText.dfy`, `Decimal.dfy`: canonical text, record patches and the exact decimal bound.
* `LineBreaks.dfy`, `Checkboxes.dfy`: keeping stored line breaks around an edit and in checkbox sets.
* `MarkerSection.dfy`, `IPv6.dfy`, `AuditTrim.dfy`: the generated file section, canonical addresses, the activity log.
* `Common.dfy`: what several of them share.

Some promises turn out false, or true only under a condition. Each has a lemma with its exact condition and one with a
concrete case:

* With nothing in flight the scheduler asks the breaker twice; when its time comes in between, the job ends with rows
  left in the queue. This takes two rows to send before the last one and a file longer than the concurrency, and
  every such file can meet it (`RowsLeftBehindExactly`, `ThreeRowsCanBeLeft`).
* A written row can be reported as an ordinary failure when its reply was lost (`FailedAndWrittenExactly`,
  `WrittenRowMayBeReportedFailed`).
* Forgetting a profile during a sign-in lets a second one start (`ForgettingAllowsTwo`, `TwoAreSentAfterForgetting`).
* A request that goes on with an outdated reading of the token, with no sign-in registered, renews a session that has
  just been renewed (`OnlyStaleReadsRenewAgain`, `StaleReadRenewsAgain`).
* A stored text with both lone carriage returns and lone line feeds can lose a break when it is edited
  (`FaithfulExactlyWhenUnmixed`, `MixedBreaksCanMerge`).
* Appending a section to a text without line feeds that ends in a carriage return makes the next write change its line
  ends (`WritingTwiceIsWritingOnce`, `LoneReturnIsWrittenTwice`).
* A checkbox option that holds a line break never comes back as one line (`LinesAreTheSelection`,
  `OptionWithBreakIsLost`).

One promise holds only for servers whose coded answers mean that nothing was written: that a row reported as changed by
someone else was not written (`ChangedAndWrittenExactly` says exactly when it fails for other servers).

## Model

| member | source | states |
|---|---|---|
| `RetryProtocol.ReportsAreTrue` | extension/src/services/batchService.ts:401-463 | Every report about a row against any honest server that may lose replies, refuse, or let others edit in between: at most three requests, at most one write when the row has a modId; `Updated` means the client last saw all values in place, written by this job or read back; `ChangedSinceExport` means nothing was written and the modification number differs; `CouldNotConfirm` needs a request before the last one sent, and a written row reported as failed any request sent, that got no coded answer |
| `RetryProtocol.WrittenAtMostOnce` | extension/src/services/batchService.ts:417-463 | With a modId a row is written at most once over the remaining attempts, and only while the record has not passed that modId |
| `RetryProtocol.RowIsWrittenAtMostOnce` | extension/src/services/batchService.ts:401-463 | The same for a whole update from its start, for every adversary |
| `RetryProtocol.WrittenOncePerAttempt` | extension/src/services/batchService.ts:417-425 | Without a modId the writes are bounded by the requests sent, at most three |
| `RetryProtocol.ThreeWritesWithoutModId` | extension/src/services/batchService.ts:423-425 | That bound is reached: two lost replies make three writes when the row has no modId |
| `RetryProtocol.UpdatedMeansHeld` | extension/src/services/batchService.ts:426-438 | A row that returns successfully holds all its values, by its own write or by the read-back after a conflict in doubt |
| `RetryProtocol.ChangedMeansUntouched` | extension/src/services/batchService.ts:331-336 | "Changed since the export" is said only of a row this job never wrote, whose modification number really differs |
| `RetryProtocol.DoubtIsNeverStale` | extension/src/services/batchService.ts:430-441 | After a lost answer a conflict is never reported as someone else's change |
| `RetryProtocol.UnconfirmedMeansDoubt` | extension/src/services/batchService.ts:480-484 | "Could not confirm" is said only when some request before the last one sent got no coded answer |
| `RetryProtocol.FailedMeansUnwrittenWithoutDoubt` | extension/src/services/batchService.ts:453-457 | Against an honest server a row that is written but does not return had a request sent that got no coded answer |
| `RetryProtocol.WrittenWhenOneLands` | extension/src/services/batchService.ts:417-425 | Against any server a row is written exactly when one of the requests sent is processed while the record still has the modId of the row (any processed request without a modId) |
| `RetryProtocol.ChangedAndWrittenExactly` | extension/src/services/batchService.ts:430-441 | Against any server a row is written and reported as changed by someone else exactly when one attempt lands, every attempt before the last is answered by a coded error that is tried again, and the last one meets a conflict; with honest answers never |
| `RetryProtocol.FailedAndWrittenExactly` | extension/src/services/batchService.ts:442-463 | Against any server a row is written and reported as an ordinary failure exactly when one of the attempts sent lands, all but the last are tried again and the last ends with an error that is no conflict |
| `RetryProtocol.WrittenRowMayBeReportedFailed` | extension/src/services/batchService.ts:453-457 | It happens against an honest server: a written row whose reply was lost and whose second attempt is refused is reported as an ordinary failure |
| `RetryProtocol.SignalsFollowRequests` | extension/src/services/batchService.ts:426-451 | The breaker and the limiter hear of a row at most once per request, and of a success exactly when the row succeeded |
| `RetryProtocol.SignalsOfOneRow` | extension/src/services/batchService.ts:401-463 | One row gives the breaker and the limiter at most three signals, and a blank or refused row none |
| `RetryProtocol.CancellationStopsSending` | extension/src/services/batchService.ts:418 | Once a cancellation is seen before an attempt, nothing more is sent |
| `RetryProtocol.UpdateOneWithRetry` | extension/src/services/batchService.ts:401-463 | The retry loop against a mutable record gives the result, the number of requests, the read-back values and the final record of the specification run |
| `BatchScheduler.NothingIsLost` | extension/src/services/batchService.ts:308-373 | At every moment of every run completed, running and queued rows add up to the file, every row is in exactly one place, and never more than ten rows are in flight, whatever the configured concurrency and the signals that move the limit |
| `BatchScheduler.CountsAreTrue` | extension/src/services/batchService.ts:382-398 | For a finished job the reported counts are the true ones, add up to the file, and both formulas for the rows not attempted give the rows left in the queue |
| `BatchScheduler.RowsStartOnlyWhenAllowed` | extension/src/services/batchService.ts:310-318 | In every state a run can be in a row leaves the queue only in a turn without cancellation or stop, with the breaker of the job letting requests through, and the rows then in flight are within its limit |
| `BatchScheduler.TripHoldsRowsBack` | extension/src/services/batchService.ts:297-314 | In every run, when a signal of a row trips the breaker of the job, no row leaves the queue in any turn before the open time is over, whatever the rows in flight still report |
| `BatchScheduler.NothingStartsAfterStop` | extension/src/services/batchService.ts:338-341 | After an account-wide refusal no run takes another row from the queue |
| `BatchScheduler.NothingStartsOnceTheLoopIsLeft` | extension/src/services/batchService.ts:375-376 | Once the main loop is left the queue never changes again |
| `BatchScheduler.LoopLeavesRowsBehind` | extension/src/services/batchService.ts:357-373 | The loop is left with rows in the queue exactly for a cancellation, a stop, or a breaker that is found open and then, asked again with nothing in flight, past its time |
| `BatchScheduler.UndisturbedJobAttemptsEveryRow` | extension/src/services/batchService.ts:357-373 | A job that finishes without cancellation or stop has left rows in the queue exactly when its run had such a crossing |
| `BatchScheduler.StepsRunOut` | extension/src/services/batchService.ts:308-376 | In every run of a job at most eight events for each row, and three more, change anything |
| `BatchScheduler.PassWaitsExactly` | extension/src/services/batchService.ts:357-373 | A pass of the loop changes nothing exactly when, with rows queued, none in flight, no cancellation and no stop, it finds the breaker open before its time twice |
| `BatchScheduler.EveryRunCanFinish` | extension/src/services/batchService.ts:308-376 | No job gets stuck: after any events, at any later time, some uncancelled continuation ends it |
| `BatchScheduler.EveryFairRunFinishes` | extension/src/services/batchService.ts:308-376 | Every job ends, when the rows that run settle and are removed, a woken loop goes on, and the loop gets its turns as the clock passes every time |
| `BatchScheduler.FairRunExists` | extension/src/services/batchService.ts:308-376 | Every batch has such a run |
| `BatchScheduler.RowsLeftBehindExactly` | extension/src/services/batchService.ts:357-373 | For some replies and some interleaving the job ends with rows left in the queue, uncancelled and not stopped, exactly for the files that are longer than the configured concurrency and have two rows to send before their last row |
| `BatchScheduler.SmallFilesAreDone` | extension/src/services/batchService.ts:357-373 | No file of one or two rows is ever left behind |
| `BatchScheduler.ThreeRowsCanBeLeft` | extension/src/services/batchService.ts:357-373 | A file of three rows whose first two are sent can be, with a concurrency of one or two |
| `BatchScheduler.RequestsAreDistinct` | extension/src/services/batchService.ts:252-264 | In every run the rows sent so far are in the order of the file, each once, for records that all differ; once the queue is empty every row to send has been sent; rows updated or heard of were sent |
| `BatchScheduler.EveryEditedRecordHasAFirstRow` | extension/src/services/batchService.ts:252-264 | Every record with editable values has a first such row, which is no duplicate |
| `BatchScheduler.UpdatedRowsHoldTheirValues` | extension/src/services/batchService.ts:320-330 | In every run against honest servers a row listed as updated held all its values when its update last saw the record, written by the job or read back |
| `BatchScheduler.FindDuplicates` | extension/src/services/batchService.ts:252-264 | The loop marks exactly the later rows for a record already named by a row with editable values |
| `BatchScheduler.BatchJob.ScheduleRows` | extension/src/services/batchService.ts:310-355 | The scheduling loop, which asks the breaker before every row, takes rows from the front while there is room, and none when cancelled, stopped or not admitted |
| `BatchScheduler.BatchJob.TakeTurn` | extension/src/services/batchService.ts:357-373 | One turn of the main loop on the queue and the breaker is one step of the job |
| `BatchScheduler.BatchJob.OnSignal` | extension/src/services/batchService.ts:426-451 | The end of a request moves the limiter and then the breaker of the job |
| `BatchScheduler.BatchJob.OnSettled` | extension/src/services/batchService.ts:324-348 | Settling a row files it as updated, failed or without values, counts it, and stops the job on an account-wide refusal |
| `BatchScheduler.BatchJob.OnRemoved` | extension/src/services/batchService.ts:350-352 | A settled row leaves the in-flight set and wakes the loop |
| `CircuitBreaker.EveryRunIsValid` | extension/src/performance/circuitBreaker.ts:64-135 | In every run the breaker is closed only with a failure count below the threshold, its counters stay in range, and the transitions it announced form one connected chain of legal moves from closed to its state |
| `CircuitBreaker.TrippedStaysOpen` | extension/src/performance/circuitBreaker.ts:110-135 | Once tripped it lets nothing through before its time, whatever late answers arrive: they can only push the time further out |
| `CircuitBreaker.TripsAtTheThreshold` | extension/src/performance/circuitBreaker.ts:84-97 | From closed, without a success, the first transition happens exactly when the failures reach the threshold |
| `CircuitBreaker.ClosesAfterEnoughSuccesses` | extension/src/performance/circuitBreaker.ts:69-78 | From half-open, without a failure, it closes exactly when enough successes have been recorded |
| `CircuitBreaker.ConfiguredIsUsable` | extension/src/performance/circuitBreaker.ts:39-44 | Whatever the options, the threshold is between 1 and 50, the open time between 100 ms and a minute, the half-open successes between 1 and 10 |
| `CircuitBreaker.CircuitBreaker.CanRequest` | extension/src/performance/circuitBreaker.ts:64-67 | Asking moves an expired breaker to half-open and answers whether requests pass |
| `CircuitBreaker.CircuitBreaker.RecordSuccess` | extension/src/performance/circuitBreaker.ts:69-82 | The new state after a success |
| `CircuitBreaker.CircuitBreaker.RecordFailure` | extension/src/performance/circuitBreaker.ts:84-97 | The new state after a failure |
| `CircuitBreaker.CircuitBreaker.Reset` | extension/src/performance/circuitBreaker.ts:99-108 | The new state after a reset |
| `AdaptiveConcurrency.EveryStepIsEarned` | extension/src/performance/adaptiveConcurrency.ts:41-73 | Over every run from a valid state, however often the limit goes down in between, each single step up has `growEvery` successes of its own |
| `AdaptiveConcurrency.LimitClimbsSlowly` | extension/src/performance/adaptiveConcurrency.ts:41-73 | In every run the limit stays between its bounds and keeps at most twenty positive samples, and its net climb is paid for by successes |
| `AdaptiveConcurrency.AdaptiveConcurrency.RecordSuccess` | extension/src/performance/adaptiveConcurrency.ts:41-62 | The new limit, samples and counters after a success |
| `AdaptiveConcurrency.AdaptiveConcurrency.RecordFailure` | extension/src/performance/adaptiveConcurrency.ts:64-73 | The new limit and counters after a failure |
| `AdaptiveConcurrency.AdaptiveConcurrency.AverageLatency` | extension/src/performance/adaptiveConcurrency.ts:94-100 | The loop computes the mean of the samples, or the target when there is none |
| `ExportPaging.BatchExportFind` | extension/src/services/batchService.ts:67-208 | For any options an export that is not cancelled writes exactly the first records from the offset, in order and once each, as many as the normalised maximum allows, for any page size and through the hundred-record buffer, with the right columns; when the probe answers, `truncated` is true exactly when another record exists; a cancelled one reports nothing |
| `ExportPaging.PagesJoin` | extension/src/services/batchService.ts:119-164 | A page continues where the pages before it ended, and a short page is the last one |
| `ExportPaging.ProbeTells` | extension/src/services/batchService.ts:166-175 | The probe finds a record exactly when one exists beyond the export |
| `ExportPaging.NoteColumn` | extension/src/services/batchService.ts:104-105 | The search for a note column ends, with a name no field uses |
| `ExportPaging.Writer.Append` | extension/src/services/batchService.ts:138-152 | A record handed over is written or kept waiting, in order, and fewer than a hundred wait |
| `ExportPaging.Writer.Close` | extension/src/services/batchService.ts:184-190 | Closing writes what still waits, under the columns of the first hundred records |
| `Csv.ParseUndoesPrint` | extension/src/services/batchService.ts:626-673 | The reader undoes every printer that follows section 2 of RFC 4180, whatever is quoted beyond need and however each row ends, up to rows that hold nothing but white space |
| `Csv.RoundTrip` | extension/src/services/batchService.ts:626-673 | A table whose rows each hold a cell that is not blank comes back exactly |
| `Csv.ReadsCells` | extension/src/services/batchService.ts:636-664 | The reader gets back a printed row of cells, quoted or plain |
| `Csv.ReadsEnd` | extension/src/services/batchService.ts:652-671 | LF, CR and CRLF each end a row, and a carriage return takes a following line feed along |
| `Csv.ParseCsv` | extension/src/services/batchService.ts:626-673 | The character loop computes the specified table |
| `SignIn.LockoutBound` | extension/src/services/fmClient.ts:191-240 | With unchanged credentials and nothing that lifts a pause, any run of requests, replies, renewals and sign-ins the user asks for, whatever token each request has read, has at most two automatic sign-ins rejected for their credentials: one ahead of expiry and one ordinary |
| `SignIn.BothRejectionsHappen` | extension/src/services/fmClient.ts:191-240 | The bound is reached |
| `SignIn.NoneIsSentWhilePaused` | extension/src/services/fmClient.ts:571-588 | Once a pause for these credentials stands, it stands for the whole run and no further automatic sign-in is sent |
| `SignIn.OneSignInAtATime` | extension/src/services/fmClient.ts:633-670 | However events interleave, at most one sign-in besides Connect is under way and it is the registered one, as long as the profile is not forgotten |
| `SignIn.ForgettingAllowsTwo` | extension/src/services/fmClient.ts:557-564 | After the profile is forgotten some run has two sign-ins besides Connect under way exactly when one was under way at that moment |
| `SignIn.TwoAreSentAfterForgetting` | extension/src/services/fmClient.ts:557-564 | Such a run: the profile is forgotten while a sign-in waits for its reply, and the next request sends a second one |
| `SignIn.RejectedTokenIsReplacedOnce` | extension/src/services/fmClient.ts:696-727 | Any number of requests rejected with one token cause at most one successful sign-in besides Connect, after which another token is stored, the same one throughout unless the user signs in too, as long as each request goes on with a current reading of the token or while a sign-in is registered |
| `SignIn.OnlyStaleReadsRenewAgain` | extension/src/services/fmClient.ts:701-709 | After the replacement, with nothing in flight, a request starts another sign-in exactly when what it has read is not current |
| `SignIn.StaleReadRenewsAgain` | extension/src/services/fmClient.ts:701-709 | It happens: a request that read the rejected token and goes on after the renewal of another renews again, and two sign-ins succeed |
| `SignIn.WaitIsKept` | extension/src/services/fmClient.ts:590-597 | Until the wait for a free session is over no automatic sign-in is sent, whatever requests arrive |
| `SignIn.SessionControl.EnsureSessionToken` | extension/src/services/fmClient.ts:619-673 | One step of the protocol on the fields, from the reading of the token on |
| `SignIn.SessionControl.RenewRejectedSession` | extension/src/services/fmClient.ts:701-727 | One step of the protocol on the fields, from the reading of the token on |
| `SignIn.SessionControl.AssertAutomaticSignInAllowed` | extension/src/services/fmClient.ts:571-598 | Drops a pause for other credentials and answers whether a sign-in may be sent |
| `SignIn.SessionControl.SendSignIn` | extension/src/services/fmClient.ts:191-194 | A sign-in the user did not ask for is sent only when it is allowed |
| `SignIn.SessionControl.RecordSignInFailure` | extension/src/services/fmClient.ts:600-612 | A credential rejection sets the pause, a lack of sessions the wait |
| `SignIn.SessionControl.OnReply` | extension/src/services/fmClient.ts:198-241 | The reply to a sign-in; a failed renewal ahead of expiry pauses nothing |
| `SignIn.SessionControl.OnTokenStored` | extension/src/services/fmClient.ts:220-227 | A stored token ends pause, wait and suspension |
| `SignIn.SessionControl.OnFailureCaught` | extension/src/services/fmClient.ts:655-665 | A failed renewal ahead of expiry suspends such renewals |
| `SignIn.SessionControl.OnEnded` | extension/src/services/fmClient.ts:666-668 | The end of a sign-in removes the registration |
| `SignIn.SessionControl.ClearPause` | extension/src/services/fmClient.ts:547-551 | Ends pause, wait and suspension |
| `SignIn.SessionControl.ForgetProfile` | extension/src/services/fmClient.ts:557-564 | Forgets everything held for the profile, the registered sign-in too |
| `AiSession.QuotaIsExact` | extension/src/ai/aiToolService.ts:261-294 | For every interleaving of reserve, settle and reset the counter is exactly the open reservations of this session plus what its settled calls kept, and both stay within 0 and 500 |
| `AiSession.WritesAreCapped` | extension/src/ai/aiToolService.ts:243-254 | Under a clock that never goes back at most ten writes are accepted in a session, and any four of them span at least 60 000 ms |
| `AiSession.SlotsAreSpaced` | extension/src/ai/aiToolService.ts:233-240 | Any `cap` + 1 accepted calls span at least a minute |
| `AiSession.WindowIsExact` | extension/src/ai/aiToolService.ts:559-563 | A slot is given exactly when fewer than the cap were given in the minute before |
| `AiSession.EveryRefusalIsAccountedFor` | extension/src/ai/aiToolService.ts:516-531 | No refusal goes missing: each is logged, told of in a later entry, or still to be told of |
| `AiSession.ConsentIsSound` | extension/src/ai/aiToolService.ts:412-475 | Whatever calls, answers and resets interleave: at most twenty dialogs a session, never two at once for a layout, every entry in flight of this session, and a layout consented (or declined) only by that answer to a dialog of this very session |
| `AiSession.PruneTimes` | extension/src/ai/aiToolService.ts:559-563 | The loop drops exactly the times that are a minute old |
| `AiSession.AiToolService.ResetSession` | extension/src/ai/aiToolService.ts:71-81 | A reset starts a new generation with nothing used, consented or in flight |
| `AiSession.AiToolService.TakeCallSlot` | extension/src/ai/aiToolService.ts:233-240 | One step of the call window |
| `AiSession.AiToolService.TakeWriteSlot` | extension/src/ai/aiToolService.ts:243-254 | One step of the write window and cap |
| `AiSession.AiToolService.ReserveRecords` | extension/src/ai/aiToolService.ts:261-269 | One step of the quota |
| `AiSession.AiToolService.SettleRecords` | extension/src/ai/aiToolService.ts:276-281 | One step of the quota |
| `AiSession.AiToolService.BeginUseLayout` | extension/src/ai/aiToolService.ts:422-456 | A call joins the open dialog of its layout or opens one |
| `AiSession.AiToolService.OnDialogFinally` | extension/src/ai/aiToolService.ts:449-453 | A closed dialog removes its own entry only |
| `AiSession.AiToolService.ResumeUseLayout` | extension/src/ai/aiToolService.ts:458-474 | A resumed call files the answer for its own session only |
| `RateLimiter.RunsStayWithinLimits` | extension/src/services/bridgeRateLimiter.ts:67-130 | Over any run without reset, under a clock that never goes back, the calls granted between any two moments are at most burst + perSecond times the elapsed seconds, and at most budget in all |
| `RateLimiter.WindowBound` | extension/src/services/bridgeRateLimiter.ts:67-130 | The window bound for the calls from any state on, whatever came before |
| `RateLimiter.TotalBound` | extension/src/services/bridgeRateLimiter.ts:68-75 | Under any clock the calls granted stay under the budget, exactly for a whole-number budget |
| `RateLimiter.GrantsArePaidFor` | extension/src/services/bridgeRateLimiter.ts:95-130 | Under any clock at all, going back included, the calls granted never exceed the tokens there were plus what flowed in |
| `RateLimiter.BurstIsAvailable` | extension/src/services/bridgeRateLimiter.ts:95-104 | A full bucket really grants its burst at one instant |
| `RateLimiter.RetryHintIsExact` | extension/src/services/bridgeRateLimiter.ts:79-93 | With a burst of at least one, the next call after a rate denial passes exactly when at least the returned number of milliseconds has been waited |
| `RateLimiter.SmallBurstNeverGrants` | extension/src/services/bridgeRateLimiter.ts:79-93 | With a burst below one no call ever passes |
| `RateLimiter.ConfiguredIsAccepted` | extension/src/services/settingsService.ts:384-394 | Whatever the settings hold, the limiter accepts what is read from them: a rate from 1 to 1000, a burst from 1 to 10000, and a whole budget from 100 to ten million |
| `RateLimiter.ConfiguredLimiterIsExact` | extension/src/services/bridgeRateLimiter.ts:67-105 | For every setting and after any calls: no more calls have passed than the budget, a call is refused for the budget exactly when it is used up, and after a refusal for the rate the hint is exact |
| `RateLimiter.NormalizedSettingsAreAccepted` | extension/src/services/bridgeRateLimiter.ts:133-147 | About a helper beside the limiter that the program does not call: its result is accepted by the constructor exactly when no setting lies strictly between 0 and 1 |
| `RateLimiter.BridgeRateLimiter.TryConsume` | extension/src/services/bridgeRateLimiter.ts:67-105 | The decision and the new state of one call |
| `RateLimiter.BridgeRateLimiter.Create` | extension/src/services/bridgeRateLimiter.ts:46-61 | Refuses a rate, burst or budget that is not positive, and otherwise starts with a full bucket |
| `RateLimiter.BridgeRateLimiter.Reset` | extension/src/services/bridgeRateLimiter.ts:108-112 | A reset fills the bucket and forgets what was consumed |
| `FormLayout.ArrangedBoxesAreApart` | designer-ui/src/canvas-engine.ts:470-531 | In the arranged layout no two selected fields or portals meet, the fields' label space included |
| `FormLayout.ArrangedBoxesAreClear` | designer-ui/src/canvas-engine.ts:504-521 | With ids given, no arranged box meets an object that was not selected, and that object is untouched |
| `FormLayout.ArrangedBoxesAreOnTheCanvas` | designer-ui/src/canvas-engine.ts:522-529 | Every arranged box lies on the returned canvas, which never shrinks |
| `FormLayout.ArrangingKeepsTheRest` | designer-ui/src/canvas-engine.ts:443-467 | Objects keep their order, ids and data; fields get the standard size and a top label, portals keep their height, all others are unchanged |
| `FormLayout.FormReadsInOrder` | designer-ui/src/canvas-engine.ts:479-497 | A field that ranks before another stands above it in the same column, or in the column to its left |
| `FormLayout.SortingIsStable` | designer-ui/src/canvas-engine.ts:479-482 | Sorting by rank keeps every item, ranks them, and leaves items of the same rank in their order |
| `FormLayout.ArrangingTwiceIsArrangingOnce` | designer-ui/src/canvas-engine.ts:470-531 | Arranging a whole layout twice is arranging it once, for one column or two: growing the canvas never flips the column count or the width of portals |
| `FormLayout.StandardizingTwiceIsStandardizingOnce` | designer-ui/src/canvas-engine.ts:444-467 | Bringing fields to standard size twice is doing it once, for any selection |
| `FormLayout.JumpPassesAnObstacle` | designer-ui/src/canvas-engine.ts:508-518 | Each jump of the block goes down and leaves fewer obstacles reaching below its top |
| `FormLayout.ClearTheWay` | designer-ui/src/canvas-engine.ts:505-518 | The shift loop ends with the block clear of every obstacle, and does not move a block that was clear |
| `FormLayout.PlaceBlock` | designer-ui/src/canvas-engine.ts:487-503 | The running column bottoms and the running portal position give the specified places |
| `FormLayout.ArrangeStandardForm` | designer-ui/src/canvas-engine.ts:470-531 | The whole arrangement with its loops computes the specified layout |
| `FormLayout.NextStandardFieldPosition` | designer-ui/src/canvas-engine.ts:560-572 | The search ends at a grid slot where the new field meets no object: the requested slot exactly when that is free, and below everything when none is requested |
| `CanonicalText.CanonicalTextIsExact` | shared/src/record-edit.ts:81-88 | Two JSON values have the same canonical text exactly when they are equal up to the order of object keys |
| `CanonicalText.TextDeterminesValue` | shared/src/record-edit.ts:81-88 | Unique decodability: equal texts, with anything behind them, are texts of the same value and end at the same place |
| `CanonicalText.ValueDeterminesText` | shared/src/record-edit.ts:81-88 | Values that are equal up to key order have the same text |
| `CanonicalText.QuotedIsPrefixFree` | shared/src/record-edit.ts:81-88 | No quoted string is the start of another text, with short escapes, \u escapes of controls and lone surrogates, and raw surrogate pairs |
| `CanonicalText.SortedKeysAgree` | shared/src/record-edit.ts:84-85 | Sorted lists with the same keys have them in the same places |
| `CanonicalText.ComputeRecordPatch` | shared/src/record-edit.ts:61-75 | The patch holds exactly the keys whose values differ, each with its new value |
| `CanonicalText.PatchIsExact` | shared/src/record-edit.ts:61-75 | Laying the patch over the original gives the draft, and every patch that does so has all its keys |
| `Decimal.NumericTextIsExact` | shared/src/record-edit.ts:190-207 | The text becomes a number exactly when it is a decimal literal of exact magnitude at most 9007199254740991 that does not vanish when rounded |
| `Decimal.LiteralsAreDecidedByMagnitude` | shared/src/record-edit.ts:190-207 | The same for every literal as written, whatever its sign, point, zeros and exponent |
| `Decimal.WrittenIsMatched` | shared/src/record-edit.ts:192 | Matching a written literal gives back its parts |
| `Decimal.MatchedIsWritten` | shared/src/record-edit.ts:192 | What is matched is a well-formed literal, written exactly like the text |
| `Decimal.SixteenPlacesAreExact` | shared/src/record-edit.ts:203-206 | For sixteen places the comparison of digit strings decides exactly |
| `Decimal.TextOrderIsNumeric` | shared/src/record-edit.ts:204 | Digit strings of equal length compare as the numbers they stand for |
| `Decimal.PlacesBound` | shared/src/record-edit.ts:200-202 | The number of places puts the value between two powers of ten |
| `LineBreaks.OneKindOfBreakIsKept` | shared/src/field-standards.ts:102-119 | Stored text with one kind of break, edited without carriage returns, displays exactly as edited and uses only that kind |
| `LineBreaks.UnmixedTextIsEditedFaithfully` | shared/src/field-standards.ts:102-119 | The edit is displayed faithfully unless the stored text has both a lone carriage return and a lone line feed |
| `LineBreaks.FaithfulExactlyWhenUnmixed` | shared/src/field-standards.ts:102-119 | Every edit without carriage returns is displayed as edited exactly when the stored text has neither a lone line feed as its first break together with a lone carriage return, nor a lone line feed right behind a character that is no break with a lone carriage return before it |
| `LineBreaks.MixedBreaksCanMerge` | shared/src/field-standards.ts:102-119 | A concrete stored text and edit after which a carriage return lands right before a line feed and two breaks become one |
| `LineBreaks.TokensShowTheEdit` | shared/src/field-standards.ts:102-119 | Token by token the result shows the edited text, whatever mixture was stored |
| `LineBreaks.CommonEndsAreKept` | shared/src/field-standards.ts:110-112 | Whatever the edit has in common with the end of the shown text is stored as it was |
| `LineBreaks.CommonStartsAreKept` | shared/src/field-standards.ts:113-114 | The same for the start, as far as the kept end leaves room |
| `LineBreaks.PreserveTextLineEndings` | shared/src/field-standards.ts:106-119 | The loops give the specified tokens |
| `Checkboxes.LinesAreTheSelection` | shared/src/field-standards.ts:126-143 | The lines of the new value that are not empty are exactly the selected options, if and only if no option holds a line break |
| `Checkboxes.OptionWithBreakIsLost` | shared/src/field-standards.ts:126-143 | A concrete option with a line break that does not come back as one line |
| `Checkboxes.AddingKeepsTheText` | shared/src/field-standards.ts:130-141 | When nothing is deselected the stored text stays as it was in front, and is returned unchanged for the same selection |
| `Checkboxes.KeepLines` | shared/src/field-standards.ts:132-135 | The loop keeps the lines that are empty or selected, with their breaks |
| `MarkerSection.WritesOneSection` | extension/src/services/aiContextWriter.ts:28-70 | A successful write leaves exactly one well-formed section; a replaced one keeps all text before the start marker and all text after the end marker's line break, an appended one keeps the whole file in front |
| `MarkerSection.WritingTwiceIsWritingOnce` | extension/src/services/aiContextWriter.ts:28-70 | Writing the same section again changes nothing, if and only if the first write did not append it to a text without line feeds that ends in a carriage return |
| `MarkerSection.LoneReturnIsWrittenTwice` | extension/src/services/aiContextWriter.ts:28-70 | A concrete text and section where the second write changes the line ends |
| `MarkerSection.OutcomeIsExact` | extension/src/services/aiContextWriter.ts:38-56 | Files without markers are appended to or refused, and a section is replaced only where there is exactly one start marker before exactly one end marker |
| `MarkerSection.OneSectionIsReplaced` | extension/src/services/aiContextWriter.ts:52-69 | A file with one well-formed section is accepted, and that section is the one found |
| `MarkerSection.CountTells` | extension/src/services/aiContextWriter.ts:82-90 | Counting none is finding none, and counting one is finding exactly one |
| `MarkerSection.CrLfAddsNoMarker` | extension/src/services/aiContextWriter.ts:78-80 | Changing line ends adds no marker |
| `MarkerSection.CountOccurrences` | extension/src/services/aiContextWriter.ts:82-90 | The index loop counts the occurrences |
| `MarkerSection.ApplyMarkerSection` | extension/src/services/aiContextWriter.ts:28-70 | The slicing computes the specified outcome |
| `IPv6.EverySpellingIsAccepted` | extension/src/ai/aiScrub.ts:9-33 | Every spelling of section 2.2 of RFC 4291, in either letter case, gives the eight padded groups it stands for |
| `IPv6.EveryAcceptedTextIsSpelling` | extension/src/ai/aiScrub.ts:9-33 | Every accepted text is, letter case aside, such a spelling |
| `IPv6.CanonicalTwiceIsCanonicalOnce` | extension/src/ai/aiScrub.ts:9-33 | The canonical text is its own canonical text |
| `IPv6.SameTextMeansSameAddress` | extension/src/ai/aiScrub.ts:32 | Two spellings get the same canonical text exactly when their groups are the same eight numbers |
| `IPv6.TailGroupsMean` | extension/src/ai/aiScrub.ts:12-19 | The two groups an IPv4 tail is turned into are its four octets |
| `IPv6.OnePair` | extension/src/ai/aiScrub.ts:20-25 | In a compressed spelling the only `::` is the one between its halves |
| `AuditTrim.Trim` | extension/src/ai/aiAudit.ts:119-143 | The two passes end at or under half the cap and drop a start of the order "not a write before a write, oldest first", no longer than needed |
| `AuditTrim.TrimmingIsDetermined` | extension/src/ai/aiAudit.ts:114-118 | That rule leaves no choice: two trimmed logs of the same lines are the same |
| `AuditTrim.Pass` | extension/src/ai/aiAudit.ts:131-138 | One pass drops lines from the oldest on and stops as soon as the rest fits |
| `RuntimeLayout.ApartStaysApart` | shared/src/ui-renderer.tsx:202-215 | Objects that did not overlap still do not, however tall the data makes the fields |
| `RuntimeLayout.RowsStayRows` | shared/src/ui-renderer.tsx:202-215 | Rows stay rows, in their order and no closer together; nothing but height and vertical position changes |
| `RuntimeLayout.RuntimeControlLayout` | shared/src/ui-renderer.tsx:202-215 | The loop that fills the row map gives the specified layout |

## Left out

- SignIn.OneSignInAtATime: runs in which the profile is forgotten are excluded, because forgetting drops the registration of a sign-in under way; `ForgettingAllowsTwo` says exactly when it does harm.
- SignIn.RejectedTokenIsReplacedOnce: disconnecting, forgetting the profile, a renewal ahead of expiry and a rejection of the new token in between are excluded, since each asks for another sign-in.
- SignIn.LockoutBound: one profile, in direct mode.
- RetryProtocol.ReportsAreTrue: coded answers are taken to mean that nothing was written; the comparison of values read back is a parameter of which only reflexivity is used.
- BatchScheduler.EveryFairRunFinishes: that the requests of a row end is taken from the HTTP timeouts, which are not modelled.
- BatchScheduler.RowsLeftBehindExactly: the waits between the attempts of a row are left out, so in the runs exhibited the three failures of a row come at one moment.
- FormLayout.ArrangingTwiceIsArrangingOnce: for whole layouts only, since for a selection the canvas can grow between two runs and change the column count.
- FormLayout.ArrangeStandardForm: object ids are taken to be distinct, the rank of a field name and the control its metadata asks for are parameters.
- CanonicalText.CanonicalTextIsExact: JSON values only, so no undefined inside a value, no NaN or Infinity, no functions and no inherited properties; a number is its number text.
- Decimal.NumericTextIsExact: exponents are exact integers, and rounding to a double appears only as the two thresholds for infinity and zero.
- LineBreaks.PreserveTextLineEndings: a Dafny character is a Unicode scalar value, so half surrogates are not modelled here or in the other text modules except `CanonicalText`.
- Backoff waits, jitter, progress reports and log lines: any wait is allowed, since only the order of events matters.
- HTTP, TLS, secret storage, files and dialogs: replaced by the events that report their outcome.
- Proxy profiles, certificate refinement and retiring old sessions on the server: they change none of the state modelled.
- The count of values in unknown CSV columns, the Excel and formula options, and the CSV stream writer itself.
- Undo and redo stacks, role guards, history and metrics caps, settings readers: each only adds facts visible in one body.
- Drag, resize and marquee interaction of the designer, and the visible range of portals.
- Scrubbing of text by regular expressions, schema validation, Markdown and HTML rendering.
