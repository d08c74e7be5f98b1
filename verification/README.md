# telegram-notifier: a verified model

telegram-notifier is a daemon that takes notifications over a Unix socket, keeps each one
as a file on disk, and has a single worker deliver them to the Telegram Bot API with
retries, priorities and rate limiting. This project models that behaviour in Dafny and
proves what the daemon promises about it.

`dafny verify dfyconfig.toml` checks everything.

## How it is built

| file | what it models |
|---|---|
| `Messages.dfy` | requests, queue entries, targets, send errors, integer widths |
| `Splitting.dfy`, `Escaping.dfy`, `TelegramClient.dfy` | message splitting, markup escaping, rendering, one delivery attempt |
| `Scheduling.dfy`, `RetryPolicy.dfy` | which entry is next, how long to sleep, backoff and giving up |
| `QueueStore.dfy` | the two queue directories, one file operation at a time, with a fault at any of them |
| `Worker.dfy`, `Draining.dfy`, `Pacing.dfy` | the worker's loop as a class, what many passes of it do, and the rate limit |
| `Server.dfy` | the notify and flush arms of `dispatch`, `submit`, the client's flush timeouts |
| `System.dfy` | the whole daemon as a step machine: handlers, channel, worker, disk, crashes, restarts |
| `SystemShape.dfy`, `SystemDurable.dfy`, `SystemCoupling.dfy`, `SystemCounts.dfy`, `SystemLives.dfy`, `SystemRefused.dfy`, `SystemTrace.dfy`, `SystemUntried.dfy`, `SystemStopped.dfy`, `SystemAttempts.dfy`, `SystemTally.dfy` | the inductive invariants of that machine, one subject a file; `SystemEffects.dfy` says what steps leave alone, and that the records the theorems speak of mean what they are called |
| `SystemTheorems.dfy` | the promises, for every reachable state of the machine |
| `Refinement.dfy` | the worker's loop, a notify request and a directory load are runs of the machine |
| `Witnesses.dfy`, `Overload.dfy` | reachable states in which a stronger, documented promise is false, and in which the real bound is reached |

The imperative sources (`worker.rs`, the operations of `queue.rs`, `dispatch`, the loops of
`telegram.rs`) are classes and methods here, each proved equal to a specification function
of the old state and of what the outside world contributes: clock readings, arrivals,
what the connections do to the directories meanwhile, Telegram's answers, disk faults. The
lemmas are about those functions. `System` then interleaves the same single steps in every
possible way; `Refinement` shows that the worker's loop is one of its runs, whatever the
connections do while it waits.

## Modelling decisions

- A crash loses memory and keeps completed file operations; a file being written is torn
  until the write returns. `store` syncs the directory and never the temporary file
  (`src/queue.rs:119-126`), so what a power loss leaves behind is not decided by the code.
- Ids are fresh: the machine creates no id twice.
- The clock may jump either way. Only `DelaysAddUp` and the draining results ask for a
  clock that does not go back, and they say so.
- `attempts` is a `u32` and deadlines are `u64`, both wrapping around as the release build
  does. Where a result needs a counter or a sum not to wrap, it says so.
- The backoff is computed over reals and rounded down.
- `max_queue_size` and the rest of the configuration may change at every start.

## Where the documentation and the code disagree

The model follows the code.

- `src/telegram.rs:12-13` calls counting characters conservative. It is not: for every
  limit a chunk of `limit` characters can have `2 * limit` UTF-16 code units
  (`Splitting.CharacterCountIsNotConservative`). A text sent as one message is within the
  limit exactly when its characters plus those outside the basic plane are
  (`Splitting.OneMessageFits`), any chunk exactly when it has room for one unit more per
  such character (`Splitting.ChunkCodeUnits`), and a text fits under every limit exactly
  when it has none (`Splitting.BasicPlaneFits`).
- `src/protocol.rs:150-152` says a flush answered with zero means everything was delivered.
  It does not: the worker takes a message it gives up on off the count as well
  (`Witnesses.FlushedZeroAfterGivingUp`), the count leaves out the channel and the entry
  being accepted (`Witnesses.FlushedZeroIsNotDelivered`), and a stopped worker drops the
  channel (`Witnesses.FlushedZeroAfterStop`). While the worker runs, zero means that
  everything acknowledged was delivered exactly when nothing acknowledged is in those two
  places and nothing acknowledged was set aside, or unreadable at a start, undelivered
  (`SystemTheorems.FlushedZeroExactly`). Once it has stopped, a message without a fault is
  finished exactly when its file is gone (`SystemTheorems.StoppedZeroExactly`).
- The manual says new messages are rejected once `max_queue_size` are pending. With a limit
  of one, two can be acknowledged (`Witnesses.SizeLimitIsExceeded`).
  `SystemTheorems.SizeCheckGoesWrong` says exactly when a request is let in over the limit
  or turned away under it; the real bound is `SystemTheorems.RealQueueBound`, reached for
  every limit and every number of connections (`Overload.BoundIsReached`).
- `src/protocol.rs:154-155` says nothing was queued when the answer is `Error`. When removing
  the rejected file fails, a restart delivers it (`Witnesses.RejectedComesBack`); otherwise it
  stays rejected (`SystemTheorems.RejectedStaysRejected`). The directory is as it was
  exactly unless a stored file could not be removed (`Server.ErrorLeavesNothing`).
- `src/worker.rs:155` says the rate limit separates API calls. It separates attempts
  (`Pacing.AttemptsAreSpaced`); whatever the interval, two calls of one attempt can be made
  at the same instant (`Pacing.CallsCloserThanTheInterval`). The calls of a run are spaced,
  however fast Telegram answers, exactly when each of its attempts makes one
  (`Pacing.CallsAreSpacedExactly`), which is when the body fits the limit or its first
  chunk is rejected (`TelegramClient.OneCallExactly`).

## Model

| member | source | states |
|---|---|---|
| SystemTheorems.AcknowledgedIsDurable | src/server.rs:232-245 | in every reachable state an id answered `Queued` has a complete copy of its message in the queue or failed directory, or was delivered in full |
| SystemTheorems.QueueFilesAreWhole | src/queue.rs:113-128 | a crash in mid-write never leaves a torn or misnamed file in the queue directory |
| SystemTheorems.AcknowledgedIsHeld | src/server.rs:233-245 | while the worker runs, an acknowledged message is on disk and held, unless it was delivered, set aside or unreadable at a start |
| SystemTheorems.DiskIsMemory | src/worker.rs:107-153 | at the loop head, for an id untouched by I/O errors, the queue file exists exactly when worker, channel or handler holds that very entry |
| SystemTheorems.PlacesAreDisjoint | src/worker.rs:147-153 | no id is in two of those places, or twice in one |
| SystemTheorems.RestartRebuildsMemory | src/queue.rs:150-189 | crash at the loop head, then a fault-free load in any order: the new process holds exactly what the old one held |
| SystemTheorems.RestartClearsTemps | src/queue.rs:150-189 | crash anywhere, then a fault-free load in any order: no temporary file is left and every queue file is as it was |
| SystemTheorems.DeliveriesBoundedByRestarts | src/worker.rs:204-220 | complete deliveries of an id never exceed one plus the restarts since it was accepted |
| SystemTheorems.OneOutcomePerLifetime | src/worker.rs:204-281 | in one process lifetime an id is delivered or given up at most once, never both, and not while it can still be attempted |
| SystemTheorems.RealQueueBound | src/worker.rs:39-52 | entries, channel and senders past the check never exceed max(restored, limit + 1024 + connections) |
| SystemTheorems.SizeCheckGoesWrong | src/worker.rs:39-47 | a request gets in over the limit exactly when channel, senders and the worker's lag make up what the published count lacks, and is turned away under it exactly while the worker is clearing the entry that fills it |
| SystemTheorems.CountersAreClose | src/worker.rs:212-219 | the published count is off by at most one, the delivered count equals the completed deliveries of this lifetime up to the one being recorded |
| SystemTheorems.FlushedZero | src/server.rs:193-198 | when a flush reads zero, every acknowledged id is delivered, set aside, was unreadable at a start, is in the channel or just being accepted, or waits on disk because the worker has stopped |
| SystemTheorems.FlushedZeroExactly | src/server.rs:193-198 | while the worker runs and zero is read: everything acknowledged was delivered exactly when nothing acknowledged is in the channel or just being accepted and none was set aside or unreadable undelivered; everything is finished exactly under the first half |
| SystemTheorems.StoppedZeroExactly | src/worker.rs:127-137 | after the worker has stopped and zero is read: an acknowledged id without a fault is finished exactly when its file is gone |
| SystemTheorems.AttemptsBoundedPerLifetime | src/worker.rs:225-260 | in one process lifetime an id is attempted at most max(1, max_attempts - attempts) times, counted from its state at the start or its creation |
| SystemTheorems.AttemptsBoundedAcrossRestarts | src/worker.rs:225-260 | over all lifetimes an id is attempted at most the largest max_attempts, plus one per restart since its creation, plus one per retry state that failed to reach the disk |
| SystemTheorems.RejectedStaysRejected | src/server.rs:235-244 | an id answered `Error` whose removal did not fail is nowhere on disk or in memory and no API call was ever made for it |
| SystemTheorems.DeliveriesAreWhole | src/telegram.rs:96-99 | each recorded delivery is one attempt whose calls were all accepted and whose texts in order are the body of the message as accepted |
| SystemTheorems.DeliveredAsRequested | src/server.rs:210-237 | the texts of a recorded delivery, in order, are what the request under its id asked for: the target's prefix, the title trimmed and in bold on its own line, the text, in the request's format or else the target's |
| SystemTheorems.DelaysAddUp | src/worker.rs:244-259 | with a clock that does not go back and stores that succeed, an entry is due no earlier than its creation plus all delays ever assigned, restarts included |
| SystemTheorems.RunInv | src/worker.rs:107-145 | every run of the machine keeps all invariants |
| SystemShape.StepShape | src/worker.rs:147-281 | every step keeps each accepted id in one place and the worker's counter consistent with what it holds |
| SystemDurable.StepDurable | src/queue.rs:113-148 | every step, fault or not, keeps held, queued and acknowledged entries on disk |
| SystemCoupling.StepCoupled | src/worker.rs:225-281 | every step keeps disk and memory in agreement for ids without I/O errors |
| SystemCounts.StepCounted | src/worker.rs:147-153 | every step keeps the counters and the load within their bounds |
| SystemCounts.LoadGrowsOnlyAtTheCheck | src/worker.rs:39-52 | the load grows only where a size check passes, and then by one |
| SystemLives.StepLives | src/worker.rs:204-281 | every step keeps the count of outcomes and deliveries per process lifetime |
| SystemRefused.StepRefused | src/server.rs:235-244 | every step keeps rejected ids out of disk, memory and wire |
| SystemTrace.StepTraced | src/telegram.rs:96-99 | every step keeps each attempt's calls a prefix of its chunks |
| SystemTrace.StepTimed | src/worker.rs:244-259 | every step keeps due times behind the assigned delays while the clock behaves |
| SystemTrace.StepAsked | src/queue.rs:54-70 | every step keeps each created entry carrying its request field by field, priority, silence and source included |
| SystemEffects.FaultsAreReal | src/queue.rs:113-189 | no step counts an id as faulty, left behind, unsaved or unreadable unless a file operation fails in it or the process dies |
| SystemEffects.BoundsAreReal | src/worker.rs:39-95 | the numbers the bounds use change only so: the limit to that of a start, starts by one each, the peak to the connections just open, what was restored to what was loaded |
| SystemEffects.GivenUpForAReason | src/worker.rs:180-260 | the worker gives up on an id only when its target does not resolve, the answer is permanent, or the attempts are used up |
| SystemUntried.StepUntried | src/worker.rs:147-153 | every step keeps ids with a connection, in the channel or just inserted free of any outcome, in this and every earlier lifetime |
| SystemAttempts.StepAttempts | src/worker.rs:225-260 | every step keeps attempts spent and attempts left within the allowance of each held id |
| SystemTally.StepTally | src/worker.rs:225-260 | every step keeps each stored counter within one attempt per restart and lost retry state of the attempts made |
| SystemStopped.StepStopped | src/worker.rs:127-137 | every step keeps the files a stopped worker leaves those of held entries, of open requests, or of messages without an outcome |
| Witnesses.FlushedZeroIsNotDelivered | src/protocol.rs:150-153 | a reachable state where the published count is zero and an acknowledged id is undelivered, in the channel |
| Witnesses.FlushedZeroAfterGivingUp | src/worker.rs:270-280 | a reachable idle state where the published count is zero, nothing is waiting, and an acknowledged id was given up undelivered |
| Witnesses.FlushedZeroAfterStop | src/worker.rs:127-131 | a reachable state where the published count is zero, the worker has stopped, and an acknowledged id is undelivered, only on disk |
| Witnesses.SizeLimitIsExceeded | src/worker.rs:39-47 | a reachable state with a limit of one and two acknowledged, undelivered messages |
| Overload.BoundIsReached | src/worker.rs:39-52 | for every limit and every number of connections a reachable state holds limit + 1024 + connections |
| Witnesses.RejectedComesBack | src/server.rs:241-243 | a reachable state where a message answered `Error` is held by the worker, its removal having failed |
| Witnesses.DeliveredTwice | src/worker.rs:204-215 | the bound on duplicates is reached with one restart |
| Refinement.LoopIsRun | src/worker.rs:107-145 | the worker's loop, with any answers and faults and whatever the connections do before each receive, during the rate limit's wait and during an attempt, is a run of the machine |
| Refinement.TurnIsRun | src/worker.rs:107-145 | so is one pass, ending at the loop head or stopped |
| Refinement.NotifyIsRun | src/server.rs:232-245 | an acceptable notify request served without waiting is a run of the machine with the same files, channel and answer, recorded under its id |
| Refinement.LoadIsRun | src/queue.rs:152-189 | loading a directory, in any order and with any faults, is a run of the machine |
| WorkerLoop.Worker.Run | src/worker.rs:107-145 | the loop does to entries, disk, counters, calls and rate limit exactly `AfterTurn` for each pass until told to stop |
| WorkerLoop.Worker.Pass | src/worker.rs:108-143 | one pass: attempt when something is due, else wait; it stops exactly when no entry's time has come and the wait ended in shutdown or a closed channel |
| WorkerLoop.Worker.DrainReceiver | src/worker.rs:115-117 | everything waiting is accepted before the attempt |
| WorkerLoop.Worker.Accept | src/worker.rs:147-153 | the entry is held and the count published |
| WorkerLoop.Worker.RespectRateLimit | src/worker.rs:156-167 | the attempt waits only if it must, and then to exactly the interval after the last attempt |
| WorkerLoop.Worker.AttemptNext | src/worker.rs:169-223 | when some entry's time has come, one of these with no High before it, or Normal before Low, or older, or smaller id in its priority, is attempted; otherwise nothing changes |
| WorkerLoop.AttemptCarries | src/worker.rs:186-198 | an attempt's calls carry the first chunks of the body to the target, in the message's format and silence or else the target's, the first at its start |
| WorkerLoop.Worker.RecordDelivery | src/worker.rs:212-219 | a delivered entry is forgotten, its file removed unless that fails, both counters published |
| WorkerLoop.Worker.HandleFailure | src/worker.rs:225-260 | a permanent error, or any error at the limit, drops the entry; every other one keeps it, one attempt more, due when Telegram asked or after the backoff, and stored so unless that fails |
| WorkerLoop.Worker.FinishFailed | src/worker.rs:270-280 | the entry moves to the failed directory with its reason and is no longer held |
| WorkerLoop.Spawn | src/worker.rs:64-95 | the worker's half of `spawn`: it holds exactly what the load returned, with the count published; there is none when reading the directory breaks |
| Draining.EntriesFollow | src/worker.rs:107-145 | the held entries of the worker evolve as the draining results assume |
| Draining.DrainIsSorted | src/worker.rs:107-121 | all due, all accepted, nothing arriving: the deliveries are the entries, High before Normal before Low, then older first, then by id, and nothing is left |
| Draining.DrainTurn | src/worker.rs:169-223 | one pass of such a drain delivers the least due entry, removes its file, counts it and leaves all else |
| Draining.DrainDelivers | src/worker.rs:107-121 | the whole drain: the delivered count rises by the number of entries, their files are gone, every other file stays |
| Draining.DrainSpendsBudget | src/worker.rs:225-260 | in a quiet run the attempts never exceed the sum of max(1, max_attempts - attempts), whatever errors occur; when they reach it nothing is left |
| Draining.DrainEnds | src/worker.rs:107-145 | in a quiet run with an honest clock twice that sum of passes empties the queue |
| Draining.AttemptSpends | src/worker.rs:169-260 | one attempt takes a unit off every sum its entry has a share in, and touches no other |
| Draining.BoundedOvertaking | src/worker.rs:112-121 | while a due entry waits, every pass attempts an entry ranked before it, at most as often as the budgets of those entries, arrivals included |
| Pacing.AttemptsAreSpaced | src/worker.rs:155-167 | attempts start at least the configured interval apart |
| Pacing.CallsAreSpacedExactly | src/worker.rs:155-167 | the calls of a run are the interval apart for all times between calls exactly when each attempt makes one call |
| Pacing.CallsCloserThanTheInterval | src/worker.rs:155-167 | for every interval a pass with two calls at the same instant |
| Pacing.CallsFollow | src/worker.rs:191-198 | the calls a run records are those of its passes, in order |
| Scheduling.NextDueIsFirst | src/queue.rs:207-219 | the fold finds an entry exactly when some entry's time has come: a High one if any, else a Normal one if any, of these the oldest, of these the one whose id is a prefix or smaller at the first difference |
| Scheduling.NextDueOrderFree | src/queue.rs:209-219 | the choice does not depend on the map's iteration order |
| Scheduling.BeforeIsTotal | src/queue.rs:213-218 | entries of different ids are ordered totally: High, Normal, Low; then age; then the ids by prefix or first differing character |
| Scheduling.BeforeIsTransitive | src/queue.rs:213-218 | that order is transitive |
| Scheduling.SleepIsExact | src/queue.rs:221-227 | with nothing due the sleep is at least a second, nothing is due before it ends and something is due when it does |
| RetryPolicy.BackoffIsMonotone | src/worker.rs:262-268 | the delay does not shrink as attempts grow, stays between 1 and max(1, max_backoff), and is constant from the 33rd on |
| RetryPolicy.BackoffValue | src/worker.rs:262-268 | the delay is initial * multiplier^min(failures - 1, 32) in whole seconds, brought between 1 and the ceiling |
| RetryPolicy.BackoffMultiplies | src/worker.rs:262-268 | with a whole multiplier the first delay is the initial one and each next one the multiple of the one before, up to the ceiling |
| RetryPolicy.DecideByError | src/worker.rs:225-260 | for every error: given up exactly when permanent or at the limit; else one attempt more, due after the delay Telegram asked for if it limited the rate, after the backoff otherwise |
| RetryPolicy.OutlastsExactly | src/worker.rs:225-260 | an entry outlasts a row of failures exactly when none is a permanent error and no limit is set or the attempts so far and these stay below it |
| QueueStore.Queue.Store | src/queue.rs:113-128 | the steps of a store up to the one that fails: the file holds the entry and no temporary one is left, or the queue is as it was |
| QueueStore.Queue.Remove | src/queue.rs:131-138 | the file is gone unless removal fails; a missing file counts as removed |
| QueueStore.Queue.Fail | src/queue.rs:141-148 | the failed file is written, then the queue file removed, up to the step that fails; no other file of either directory changes |
| QueueStore.Queue.LoadAll | src/queue.rs:152-189 | the directory is processed name by name, stopping with an error where reading it breaks |
| QueueStore.LoadAllExactly | src/queue.rs:150-189 | loading any directory in any order: entries are what the readable files hold, by name where files are named after entries; unreadable files are set aside unless that fails; temporary files never load |
| QueueStore.LoadIsFromFiles | src/queue.rs:150-189 | in any directory, misnamed files included: loaded entries are contents of readable files, every readable file's id is loaded, and its file stays |
| QueueStore.StoreThenLoad | src/queue.rs:115-189 | a stored entry comes back from the next load unless another file holds an entry with its id |
| Server.ConnectionContext.Notify | src/server.rs:210-246 | files, channel and answer after a notify request; when `Queued`, the file is complete and its entry is new, carries the request and is last in the channel |
| Server.QueuedMeans | src/server.rs:223-245 | a `Queued` answer in full: id, complete file, each field of the entry, its target or the default one, its place behind the entries the worker has not taken |
| Server.AnswerMeans | src/server.rs:210-246 | which answer each request gets, in the order the checks are made |
| Server.PrecheckMeans | src/server.rs:210-222 | a request is turned down unwritten exactly for another protocol version, a text and title of nothing but white space, or an unknown target, in that order |
| Server.ErrorLeavesNothing | src/protocol.rs:154-155 | after an `Error` the queue directory is as it was exactly unless a stored file could not be removed, and the channel holds nothing new |
| Server.ConnectionContext.Flush | src/server.rs:189-209 | the answer is (0, false) or (n > 0, true), the latter not before the timeout asked for, five minutes at most, and both within one poll of 50 ms after it |
| Server.WorkerHandle.Submit | src/worker.rs:39-52 | full exactly when the published count has reached a non-zero limit, the channel then unchanged; else the entry is last in the channel behind the older ones, or the worker is gone and nothing was added |
| Server.Channel.Send | src/worker.rs:48-51 | sent exactly when the channel is open and has or gets room; then the entry is last and before it stand the older ones less those taken; else the channel is closed and nothing was added |
| Server.ClientOutlivesTheFlush | src/bin/telegram-notify.rs:163-167 | the daemon waits what was asked, up to five minutes, and its deadline and last poll fall before the client's socket timeout, for every wait |
| Splitting.SplitMessage | src/telegram.rs:247-291 | the two loops compute `Split` |
| Splitting.HardSplit | src/telegram.rs:264-273 | the inner loop cuts full pieces and keeps the rest |
| Splitting.SplitConcat | src/telegram.rs:247-291 | the chunks concatenate to the text |
| Splitting.SplitPacked | src/telegram.rs:247-291 | chunks fit; over the limit none is empty and no two neighbours would fit together |
| Splitting.SplitCount | src/telegram.rs:247-291 | at most 2 * floor(n / (limit + 1)) + 1 chunks |
| Splitting.OneChunkExactly | src/telegram.rs:248-250 | one chunk exactly when the text fits |
| Splitting.NoFittingLineIsCut | src/telegram.rs:256-285 | a boundary lies inside a line only if that line is over the limit |
| Splitting.OneMessageFits | src/telegram.rs:12-14 | a text sent as one message is within the limit in UTF-16 units exactly when its characters and its characters outside the basic plane together are |
| Splitting.BasicPlaneFits | src/telegram.rs:12-14 | every chunk fits under every limit exactly when the text stays in the basic plane |
| Splitting.ChunkCodeUnits | src/telegram.rs:12-14 | a chunk has at most twice the limit in UTF-16 units, and fits exactly when its characters outside the basic plane have room |
| Splitting.CharacterCountIsNotConservative | src/telegram.rs:12-14 | for every limit a single chunk with twice as many UTF-16 units |
| TelegramClient.Client.SendMessage | src/telegram.rs:89-100 | the calls made and the error returned, chunk by chunk |
| TelegramClient.CallsArePrefix | src/telegram.rs:96-98 | the calls are a non-empty prefix of the chunks, each within the limit, addressed and marked up as asked, all but the last accepted |
| TelegramClient.OneCallExactly | src/telegram.rs:96-98 | an attempt makes one call exactly when its body fits the limit or its first chunk is rejected |
| TelegramClient.SuccessMeansWholeBody | src/telegram.rs:96-99 | success exactly when every call was accepted and their texts are the body |
| Escaping.EscapeHtmlIsOnePass | src/telegram.rs:239-243 | the three replacements are one character map |
| Escaping.NoRawAngleBracket | src/telegram.rs:239-243 | no raw angle bracket is left |
| Escaping.HtmlRoundTrip | src/telegram.rs:239-243 | decoding the entities gives the text back |
| Escaping.EscapeMarkdownV2 | src/telegram.rs:224-236 | the loop computes the escaped text |
| Escaping.MarkdownRoundTrip | src/telegram.rs:224-236 | dropping backslashes before reserved characters gives every text back |
| Escaping.MarkdownReadExactly | src/telegram.rs:224-236 | under the Bot API's own rule the text comes back exactly when no backslash of it precedes an escapable character |
| Escaping.HtmlTitleIsContained | src/telegram.rs:206-221 | the bold heading closes where the title ends and decodes to it |
| Escaping.MarkdownTitleIsContained | src/telegram.rs:206-221 | the MarkdownV2 heading closes where the title ends and reads as it exactly when no backslash of it stands before an escapable character, the closing star included |
| Escaping.StarIsSwallowed | src/telegram.rs:206-221 | a title that ends in a backslash swallows the closing star of its heading |
| Escaping.BodySays | src/telegram.rs:206-221 | the body is the prefix, the trimmed title in the format's bold, a newline and the text; a blank title, or a blank text under one, is left out |
| Escaping.TrimIsExact | src/telegram.rs:206-221 | trimming takes white space off both ends, all of it and nothing else |
| Escaping.TextIsVerbatim | src/telegram.rs:206-221 | the text is the unaltered end of the body |

## Left out

- HTTP, JSON and TOML, TLS and `send_chunk` itself: an API call is an arbitrary acceptance or `SendError`.
- `classify_api`, `classify_http`: the mapping from status codes to `SendError` is one branch each.
- Target resolution and tokens: each attempt resolves to an arbitrary target or fails.
- Socket setup, connection framing, ping and status requests, systemd, signals, logging, packaging.
- Power loss and what `fsync` does: see the modelling decisions.
- Memory ordering of the counters: each load and store is one step.
- Floating point in the backoff: rounding, infinities and NaN.
- Shutdown timing: the worker may stop whenever it is idle and drops the channel; when it is told to is not modelled.
- Text of `last_error` and of rejection messages: the reason is kept as a value.
- Foreign file names in the queue directory: they are in `QueueStore.LoadAll`, not in the step machine.
- Refinement.LoopIsRun: what the connections do during an attempt comes before its file operations in one run; the machine interleaves them freely.
- WorkerLoop.Spawn: the channel and the handle `spawn` also builds are in `System` and `Server`.
- Refinement.NotifyIsRun: covers requests that find room in the channel or the worker gone; one that waits for room interleaves with the worker, which the machine has and the sequential method only parameterises.
- Server.ConnectionContext.Flush: the pending count over time and the lateness of sleeps are parameters, not the machine's.
