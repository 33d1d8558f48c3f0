# Sealvo: verified models of the stateful core

Sealvo is a vocabulary trainer: an API with background workers over MySQL, Redis and RabbitMQ, and a
web client with word games. This project models the parts where state, concurrency or arithmetic
decide the result, and proves what they promise.

| file | what it models |
|---|---|
| `ImportAcceptance.dfy` | accepting words in bulk: direct save, or journal line and outbox row committed together, then a first publish |
| `OutboxRelay.dfy` | relay workers competing for outbox rows with leased claims |
| `ImportPipeline.dfy` | the whole protocol as a state machine: outbox, publishers, broker, retry and failed queues, crashing workers, idempotent save |
| `ImportSafety.dfy`, `ImportAttempts.dfy`, `ImportGuarantees.dfy` | no step of the protocol loses a job; attempts per message are bounded; what follows for every run |
| `ImportRetries.dfy`, `ImportProgress.dfy` | failed jobs are retried before they are parked, with a measure of the retries left; every job can still reach its end |
| `ImportEffect.dfy` | the pipeline's abstract save and the word-adding transaction are the same effect |
| `ImportWorker.dfy` | one delivery: ack, nack, parking, ordered status reports; shown to be a run of the pipeline |
| `RefreshSessions.dfy` | refresh-token rotation with reuse detection, as a state machine and as a class whose other requests act at every await |
| `WordTables.dfy`, `WordSharing.dfy`, `WordStore.dfy` | word details shared between packages: insert, copy on write, garbage collection, copies, runs of transactions |
| `CircuitBreaker.dfy` | the circuit breaker under overlapping calls that settle late, and retry with backoff |
| `SpacedRepetition.dfy`, `Learning.dfy` | due dates, level promotion raced through an atomic removal, spacing over whole runs |
| `WordSearchGrid.dfy` | hiding words in a letter grid, finding them again, matching a selection |
| `Levenshtein.dfy`, `Pronunciation.dfy` | the edit-distance table, phonetic variants and the pronunciation score |
| `Throttler.dfy` | the fixed-window rate limiter with a block |
| `JobStream.dfy`, `JobStreamProvisos.dfy` | following a job over server-sent events: what each stream shows, and what it takes that every stream is told the end |
| `ActivityCursor.dfy`, `ActivityPagination.dfy` | the cursor as text (JSON in base64url) and keyset pagination of the activity journal |
| `DailySchedule.dfy` | daily runs at fixed hours: next run and longest gap |

Protocols are state machines over atomic steps (a transaction, a Redis command, a broker event) with
arbitrary interleaving, and theorems about every reachable state or every run. Code that works step
by step is a class or a method with loops, proved equal to a specification function or against an
outright postcondition; the theorems are then about that specification.

`dafny verify dfyconfig.toml` checks everything.

## Where the code does less than one would expect

Each of these is proved: the exact condition under which the expected property holds, or a run that
breaks it.

* **Rate bound** (`Throttler.TwiceTheLimitExactly`): "at most twice the limit in any interval of one
  window" holds exactly when there is no block, the block lasts at least the window, the limit is 0,
  or the limit is 1 and the block is longer than half the window. Otherwise a short block restarts the
  window early and a concrete burst gets through.
* **Copy on write** (`WordSharing.UpdateSparesOthersExactly`): `updateWord` reads its row before its
  transaction. An edit spares the other packages exactly when the package still lists the detail
  inside the transaction, or when the edit would change no line anyway; otherwise it lands on the one
  other package that lists the detail. Over whole runs, from tables in which packages share details,
  that is exactly how a list moves without a transaction of its own package
  (`WordStore.ListsMoveByTheirOwner`, `WordStore.StaleEditMoves`), and it happens
  (`WordStore.StaleEditHappens`).
* **Delete all** (`WordSharing.DeleteAllKeeps`): the detail ids are read before the transaction.
  Unreferenced details are left behind exactly when that read misses a detail only this package links;
  a whole run stays clean exactly when no delete-all misses one (`WordStore.RunIsSound`).
* **Longest gap** (`DailySchedule.MaxGapAttainedExactly`): with a repeated hour the gap is reported as
  a whole day; it is attained exactly when the hours are distinct or all equal.
* **Final status** (`ImportWorker.StatusTellsFate`): a job that did not show `completed` before a delivery
  shows it afterwards exactly when the handler saw the words saved, the tracker took the completion, and
  it took no failure after it (`ImportWorker.ShownExactly` gives the status in every case). A failure follows a completion only when the channel closed before the ack of a first delivery, since
  the ack shares the `try` of the save. So saved words may show `processing`, with the channel open and
  the message acked (`ImportWorker.OpenChannelMayHide`), and a commit the worker does not see shows
  `retrying` or `failed` (`ImportWorker.UnseenCommitShows`).
* **One copy in the broker** (`OutboxRelay.OneCopyExactly`): a job enters the broker at most once exactly
  under six assumptions; dropping any single one allows two copies. The save deduplicates them
  (`ImportGuarantees.ExactlyOnce`).
* **Missed final status** (`JobStreamProvisos.NeverStuckExactly`): no stream of a finished job ever waits for
  nothing exactly under four provisos: second reads are answered, no publication of a final status is
  lost, every final status finds Redis up with a record of the job, and the record of a finished job
  does not expire meanwhile. Dropping any one of them leaves a stream waiting on some run; a job
  accepted while Redis was down has no record. Lost progress updates do not matter.
* **Outdated last line** (`JobStreamProvisos.LastLineExactly`): the last line of an ended stream is the
  stored final status exactly when no final status is ever replaced; a job can fail, end its streams,
  and be completed by another delivery (`JobStreamProvisos.FailedThenCompleted`).
* **Refused jobs** (`ImportAcceptance.BulkWordsService.Enqueue`): a job whose transaction failed keeps a
  tracker record exactly when the removal of that record fails too.
* **Word search** (`WordSearchGrid.AllFoundExactly`): a game can be completed exactly when no word is
  hidden twice.
* **Silence** (`Pronunciation.SilenceCountsAsPart`): hearing nothing scores at least 75, because the
  empty string is part of every word.
* **Other scripts** (`Pronunciation.OtherScriptExactly`): a target without an ASCII letter, digit or
  underscore is deleted whole before it is compared. It scores at least 95 exactly for what is deleted
  whole too, whichever words those are, and 75 to 85 for everything else.
* **Probe isolation** (`CircuitBreaker.ProbeShieldsExactly`): a probe keeps all other calls out exactly when
  no other call is in flight as it starts; with every threshold and timeout some run starts a probe
  that is not alone (`CircuitBreaker.ProbeMayNotBeAlone`).

## Model

| member | source | states |
|---|---|---|
| ImportAcceptance.BulkWordsService.Add | apps/api/src/import/bulk-words.service.ts:71-117 | small batches are saved in the request, larger ones queued; a queued job is in the outbox or in the broker; a refused one left nothing behind, save a tracker record whose removal failed |
| ImportAcceptance.BulkWordsService.Enqueue | apps/api/src/import/bulk-words.service.ts:123-175 | journal and outbox commit together or not at all; the row leaves the outbox only after a confirmed publish; the tracker record of a refused job stays exactly when its removal fails |
| ImportAcceptance.BulkWordsService.TryPublish | apps/api/src/import/bulk-words.service.ts:177-189 | true only when the broker confirmed; the copy may have arrived all the same |
| ImportAcceptance.EnqueueIsARun | apps/api/src/import/bulk-words.service.ts:134-172 | a queued request is a run of the pipeline ending with the same outbox and the job in the outbox or in the broker |
| OutboxRelay.ImportOutboxService.Claim | apps/api/src/import/import-outbox.service.ts:121-136 | the claim is won, and stamped, exactly when the row is there and unclaimed or its claim older than 30 s |
| OutboxRelay.ImportOutboxService.Release | apps/api/src/import/import-outbox.service.ts:139-144 | only the claim stored at that time is dropped |
| OutboxRelay.ImportOutboxService.Oldest | apps/api/src/import/import-outbox.service.ts:60-66 | at most 20 rows past the grace period, oldest first; a pending row left out is no older than those taken |
| OutboxRelay.ImportOutboxService.FlushRow | apps/api/src/import/import-outbox.service.ts:104-113 | one row with others at work before and within the turn: sent exactly when won, then removed, or stripped of this very claim, or left when a query throws |
| OutboxRelay.ImportOutboxService.Flush | apps/api/src/import/import-outbox.service.ts:101-115 | the batch is dealt with turn by turn among other workers, as time passes, until it is through or a query throws; exactly the rows won are sent |
| OutboxRelay.QuietFlush | apps/api/src/import/import-outbox.service.ts:101-115 | with nobody else at work and no throw, the turns add up to dealing with each row by itself |
| OutboxRelay.FlushedRows | apps/api/src/import/import-outbox.service.ts:101-115 | each row of the batch fares by itself; a row held by another worker and rows outside the batch are untouched |
| OutboxRelay.ClaimTaken | apps/api/src/import/import-outbox.service.ts:121-136 | a claim can be won only once every outstanding one has expired, and gets a new time |
| OutboxRelay.ClaimsNeverClash | apps/api/src/import/import-outbox.service.ts:117-144 | on every run: outstanding claims are pairwise distinct, at most one is unexpired, a late release leaves another worker's claim |
| OutboxRelay.LostTurnIsARun | apps/api/src/import/import-outbox.service.ts:104-105 | a turn that does not win its row is one failed claim in the race over that job |
| OutboxRelay.TurnIsARun | apps/api/src/import/import-outbox.service.ts:104-113 | a turn of a flush that wins its row, with others acting before it ends, is a run of the race over that job with the same row at the end |
| OutboxRelay.AtMostOneCopy | apps/api/src/import/import-outbox.service.ts:16-24 | with request and relays on time and no publish or delete lost, a job enters the broker at most once |
| OutboxRelay.OneCopyExactly | apps/api/src/import/import-outbox.service.ts:16-24 | a job enters the broker at most once on all runs exactly under the six assumptions, each of which is needed |
| OutboxRelay.OutlivedClaimDuplicates | apps/api/src/import/import-outbox.service.ts:23-24 | a relay that outlives its claim lets a second copy in |
| OutboxRelay.LostDeleteDuplicates | apps/api/src/import/import-outbox.service.ts:106-112 | a relay that stops between a confirmed publish and the delete lets a second copy in |
| ImportPipeline.RejectionsCounted | apps/api/src/rabbitmq/retry-queue.ts:61-69 | a rejection raises the retry count by one, waiting in the retry queue leaves it alone |
| ImportSafety.KeptStep | apps/api/src/import/import-queue.service.ts:78-157 | every step of every process keeps the no-loss invariant, and takes back nothing accepted, applied, parked or arrived |
| ImportGuarantees.SaveOnce | apps/api/src/words/words.service.ts:151-187 | the save transaction inserts the job's rows exactly when the job was not recorded |
| ImportGuarantees.ExactlyOnce | apps/api/src/words/words.service.ts:77-87 | in every reachable state a job has no rows, or one row per submitted word in order, as its record says |
| ImportGuarantees.ReportsAreFull | apps/api/src/words/words.service.ts:189-206 | every completion written reports all submitted words of a saved job |
| ImportGuarantees.NothingLost | apps/api/src/import/bulk-words.service.ts:133-172 | an accepted job is in the outbox, with the broker or a worker, parked, or applied |
| ImportGuarantees.AckMeansSafe | apps/api/src/rabbitmq/retry-queue.ts:76-92 | a well-formed message is acked only when its job is applied or its parked copy stored |
| ImportGuarantees.StartsBounded | apps/api/src/import/import-queue.service.ts:93-103 | a copy starts `addWords` at most retries + 1 times, plus one per unconfirmed park or thrown handler, however often workers crash |
| ImportRetries.RetriesRunOut | apps/api/src/rabbitmq/retry-queue.ts:61-81 | a measure per copy that is never negative, no step raises and each retry lowers by one |
| ImportRetries.NewCopyIsFresh | apps/api/src/import/import-queue.service.ts:58-70 | a published copy carries its job, never rejected nor redelivered, with one retry left |
| ImportRetries.NeverParkedAtOnce | apps/api/src/rabbitmq/retry-queue.ts:71-91 | in every reachable state, a copy being parked or in the failed queue was rejected at least once before |
| ImportRetries.FailureIsRetried | apps/api/src/rabbitmq/retry-queue.ts:80-81 | a failed job never rejected before goes round the retry queue and is back in the work queue as a first delivery, counted once, nothing parked |
| ImportRetries.SecondFailureIsParked | apps/api/src/rabbitmq/retry-queue.ts:82-91 | a failed job rejected before can be parked with its message settled |
| ImportRetries.AtMostThreeTransactions | apps/api/src/words/words.service.ts:149-187 | in every reachable state a delivery is in the third run of its transaction at most, each deadlock counts, the third one fails it |
| ImportProgress.EveryJobCanSettle | apps/api/src/import/import-queue.service.ts:78-157 | from every reachable state some run applies or parks any accepted job, publishing a new copy only if it is in the outbox |
| ImportEffect.SaveIsTheTransaction | apps/api/src/words/words.service.ts:149-192 | the word-adding transaction records the same jobs as the pipeline's save and inserts a line for each of its rows; it rolls back only for a missing package |
| ImportAttempts.WorkerHandlerBounded | apps/api/src/rabbitmq/rabbitmq.service.ts:194-207 | an unstarted first delivery is new to its copy, whatever other handlers of the copy still do |
| ImportSafety.BrokerHandlerOk | apps/api/src/rabbitmq/rabbitmq.service.ts:179-211 | losing a consumer, redelivering or dead-lettering keeps every running handler consistent with its message |
| ImportWorker.Channel.Reject | apps/api/src/rabbitmq/retry-queue.ts:76-92 | the original is acked only once its parked copy is confirmed, else it goes round again; on a closed channel it throws and settles nothing |
| ImportWorker.ImportQueueService.Report | apps/api/src/import/import-queue.service.ts:105-141 | the reports written and still queued are the due ones, in order; each write may be lost |
| ImportWorker.ReportsEveryTwentieth | apps/api/src/import/import-queue.service.ts:103-141 | saving progress appears at least every twentieth of the words, no oftener before the last word, and at the last; Gemini's always |
| ImportWorker.ImportQueueService.Fail | apps/api/src/import/import-queue.service.ts:176-192 | writes `failed` or `retrying` by the retries left, which the tracker may not take, then settles the message, or leaves it unsettled on a closed channel |
| ImportWorker.RetriedThenParked | apps/api/src/import/import-queue.service.ts:176-192 | a failed job never rejected shows `retrying` and is dead-lettered; one rejected before shows `failed` and is parked if the broker confirms |
| ImportWorker.FirstAndSecondDelivery | apps/api/src/rabbitmq/retry-queue.ts:61-69 | a new message counts no rejection, one that went round the retry queue counts one |
| ImportWorker.ImportQueueService.Handle | apps/api/src/import/import-queue.service.ts:78-157 | the message is settled at most once as specified, on a channel that may close at any time; the writes end with the final ones, no late progress after them; the status shown is that of the last write taken |
| ImportWorker.ShownExactly | apps/api/src/import/job-tracker.service.ts:143-159 | the status shown after a delivery, for every set of writes the tracker took |
| ImportWorker.StatusTellsFate | apps/api/src/import/import-queue.service.ts:130-156 | `completed` appears exactly when the save was seen and the completion taken, with no failure taken after it, which only a channel closed before the ack of a first delivery allows; what shows `completed` is saved |
| ImportWorker.OpenChannelMayHide | apps/api/src/import/import-queue.service.ts:149-160 | words saved, channel open, message acked, and the job still shows `processing` |
| ImportWorker.UnseenCommitShows | apps/api/src/import/import-queue.service.ts:152-185 | words saved by a commit the worker did not see, and the job shows `retrying` or `failed` |
| ImportWorker.HandleIsARun | apps/api/src/import/import-queue.service.ts:78-157 | a delivery nobody else disturbs, on a channel that may close, is a run of the pipeline with the same settlement, report and effect, an unseen commit included |
| RefreshSessions.ParseExactly | apps/api/src/auth/session.service.ts:15-19 | a token is accepted exactly when it is one dot between 36 and 64 characters |
| RefreshSessions.StepKeeps | apps/api/src/auth/session.service.ts:47-86 | every step of every concurrent rotation keeps the lineage invariant |
| RefreshSessions.NeverExhausted | apps/api/src/auth/session.service.ts:52-86 | no concurrent rotation runs out of attempts: the final `return null` is unreachable |
| RefreshSessions.DecidedByLineage | apps/api/src/auth/session.service.ts:53-71 | a presented secret is accepted exactly when current, or the previous one within 10 s; judged against the whole lineage |
| RefreshSessions.AnotherRotation | apps/api/src/auth/session.service.ts:47-86 | from every reachable state with a live session, a request with its current secret can rotate it |
| RefreshSessions.OldSecretIsReplay | apps/api/src/auth/session.service.ts:63-70 | any older secret of a live session is a replay |
| RefreshSessions.AtMostTwoSuccessors | apps/api/src/auth/session.service.ts:56-83 | each secret earns at most two successors, consecutive, the second within the leeway |
| RefreshSessions.LifetimeBounded | apps/api/src/auth/session.service.ts:12-13 | expiry never exceeds creation + 30 days nor the last rotation + 7 days, and no rotation is decided later |
| RefreshSessions.GoneForGood | apps/api/src/auth/session.service.ts:73-85 | nothing is granted once the session is gone |
| RefreshSessions.ReplayEndsTheSession | apps/api/src/auth/session.service.ts:63-70 | after a detected replay no rotation ever succeeds again |
| RefreshSessions.SessionService.Create | apps/api/src/auth/session.service.ts:31-44 | a session with its first secret, expiring within both limits; the initial state of the concurrent rotations |
| RefreshSessions.SessionService.ReadAndJudge | apps/api/src/auth/session.service.ts:53-63 | the verdict on the row read, any run of others acting before and after the read, takes this rotation to the matching step; an accepted one lost at most one swap |
| RefreshSessions.SessionService.Swap | apps/api/src/auth/session.service.ts:72-83 | after any run of others, the compare-and-swap grants the last secret issued, or takes this rotation back to its read, which happens at most twice |
| RefreshSessions.SessionService.Rotate | apps/api/src/auth/session.service.ts:47-86 | the loop is a run of the concurrent rotations that ends this one with the answer given; it never falls through; a granted secret is the last one issued, a revoked session is gone |
| WordTables.UpsertFinds | apps/api/src/words/words.service.ts:41-50 | the id found or created carries the key, and the unique key holds |
| WordTables.KeyTextTells | apps/api/src/words/words.service.ts:55-57 | different base words have different JSON texts, so sorting by text orders them totally |
| WordTables.SameLockOrder | apps/api/src/words/words.service.ts:55-74 | two imports sharing two base words upsert them in the same order, whatever else they hold |
| WordTables.AddWordsSound | apps/api/src/words/words.service.ts:126-192 | adding keeps every foreign key, leaves no unreferenced detail, and records the job exactly when words were added |
| WordTables.AddWordsShows | apps/api/src/words/words.service.ts:149-192 | the package gains exactly the submitted words in order, no other list changes |
| WordSharing.OrphansShow | apps/api/src/words/orphan-details.ts:4-8 | deleting orphans changes no list |
| WordSharing.OrphansGarbage | apps/api/src/words/orphan-details.ts:4-8 | nothing unreferenced is left exactly when all unreferenced details were given |
| WordSharing.DeleteWordShows | apps/api/src/words/words.service.ts:303-320 | exactly that line of that package disappears |
| WordSharing.DeleteWordKeeps | apps/api/src/words/words.service.ts:312-317 | foreign keys and absence of garbage are kept |
| WordSharing.DeleteAllShows | apps/api/src/words/words.service.ts:323-341 | exactly the package's list is emptied |
| WordSharing.DeleteAllKeeps | apps/api/src/words/words.service.ts:323-341 | garbage is left exactly when the earlier read misses a detail only this package links |
| WordSharing.DropPackageShows | apps/api/src/packages/packages.service.ts:107-136 | exactly the package's list disappears |
| WordSharing.DropPackageRow | apps/api/src/packages/packages.service.ts:113-121 | the package row goes, and no other |
| WordSharing.DropPackageKeeps | apps/api/src/packages/packages.service.ts:107-136 | foreign keys and absence of garbage are kept |
| WordSharing.CopyKeeps | apps/api/src/packages/packages.service.ts:185-234 | a copy keeps foreign keys and leaves no garbage |
| WordSharing.CopyShows | apps/api/src/packages/packages.service.ts:185-234 | only the new package gains lines |
| WordSharing.CreatesItsRow | apps/api/src/packages/packages.service.ts:187-195 | a new package and a copy store the given row under an id never used, and no other package changes |
| WordSharing.CopyListsTheSource | apps/api/src/packages/packages.service.ts:176-221 | the copy lists the source as read, at level `x`, on details of its own, whatever committed in between |
| WordSharing.UpdateKeeps | apps/api/src/words/words.service.ts:232-297 | no edit, however stale its read, breaks a foreign key or leaves garbage |
| WordSharing.UpdateShows | apps/api/src/words/words.service.ts:232-297 | the package's line is patched, on a clone exactly when the detail is shared; no other line moves |
| WordSharing.EditShowsFields | apps/api/src/words/words.service.ts:237-287 | the edited line field by field: seven content fields, three key fields and the level are what was submitted, else what they were; on a clone, what was read |
| WordSharing.UndisturbedEditShows | apps/api/src/words/words.service.ts:209-300 | when nobody edited the row since the read, every field is what was submitted, else what it was |
| WordSharing.StaleUpdateHitsAnother | apps/api/src/words/words.service.ts:209-297 | an edit whose row left the package meanwhile lands on the one other package listing its detail |
| WordSharing.StaleEditShowsFields | apps/api/src/words/words.service.ts:237-287 | the line a stale edit overwrites in another package, field by field |
| WordSharing.UpdateSparesOthersExactly | apps/api/src/words/words.service.ts:209-297 | a committed edit spares all others exactly when the package still lists the detail in the transaction, or the edit changes no line showing it; unreferenced details may be about |
| WordStore.Store.UpsertWord | apps/api/src/words/words.service.ts:41-50 | refines the specification of the upsert |
| WordStore.Store.UpsertWords | apps/api/src/words/words.service.ts:59-75 | each distinct key, upserted once in sorted order, gives the id of every word |
| WordStore.Store.AddWords | apps/api/src/words/words.service.ts:126-192 | refines `AddWords`: already applied, rolled back, or added with the full count |
| WordStore.Store.UpdateTransaction | apps/api/src/words/words.service.ts:232-297 | refines `Update`, rolling back everything when a statement fails |
| WordStore.Store.UpdateWord | apps/api/src/words/words.service.ts:209-300 | an undisturbed edit fails exactly when the row is missing |
| WordStore.Store.DeleteOrphanDetails | apps/api/src/words/orphan-details.ts:4-8 | refines `DeleteOrphans` |
| WordStore.Store.DeleteWord | apps/api/src/words/words.service.ts:303-320 | refines `DeleteWord`, including the missing row |
| WordStore.Store.DeleteAllWords | apps/api/src/words/words.service.ts:323-341 | an undisturbed delete-all, with its count and its early return |
| WordStore.Store.DeletePackage | apps/api/src/packages/packages.service.ts:107-136 | refines `DropPackage`, including the missing package |
| WordStore.Store.CopyPublicPackage | apps/api/src/packages/packages.service.ts:163-235 | missing and non-public sources are refused; otherwise a private active package of the user, named and described as the source, lists what was read |
| WordStore.CommitKeeps | apps/api/src/words/words.service.ts:126-341 | every transaction keeps foreign keys; it leaves garbage exactly when it is a delete-all whose read missed a detail only its package links |
| WordStore.CommitSparesOthersExactly | apps/api/src/words/words.service.ts:126-341 | a transaction leaves all other packages' lists alone exactly when it is not a stale edit that shows |
| WordStore.BaseWordsStay | apps/api/src/words/words.service.ts:36-75 | base words are never changed or deleted |
| WordStore.RunKeeps | apps/api/src/words/words.service.ts:209-297 | on every run from sound tables, what each request read earlier about base words still holds when it commits |
| WordStore.RunIsSound | apps/api/src/packages/packages.service.ts:107-235 | no run leaves a dangling learning row; no detail is ever left unreferenced exactly when every delete-all read all the details only its package links |
| WordStore.ListsMoveByTheirOwner | apps/api/src/packages/packages.service.ts:107-235 | between two states of a run a package's list does not move unless a transaction on it, or a stale edit that shows, comes between them; packages may share details from the start |
| WordStore.StaleEditMoves | apps/api/src/words/words.service.ts:209-297 | on every run, a stale edit that shows moves the list of a package not its own |
| WordStore.StaleEditHappens | apps/api/src/words/words.service.ts:262-274 | a run in which two packages share a detail, one reads it for an edit and removes it, and the edit commits on the line of the other |
| WordStore.CopyListsWhatWasRead | apps/api/src/packages/packages.service.ts:176-221 | on every run, a copy lists its source as it stood when it was read |
| CircuitBreaker.CircuitBreaker.Begin | packages/shared/src/resilience/index.ts:201-214 | refines `Enter`: state and admission before the wrapped call |
| CircuitBreaker.CircuitBreaker.Settle | packages/shared/src/resilience/index.ts:216-243 | refines `Leave`: state after the call settles |
| CircuitBreaker.BreakerInvariant | packages/shared/src/resilience/index.ts:171-243 | on every overlapping run: probing iff exactly one probe is in flight, HALF_OPEN implies probing, CLOSED is below the threshold, the count is the failures since the last success |
| CircuitBreaker.AdmittedExactly | packages/shared/src/resilience/index.ts:201-214 | exactly when a call is let in, in terms of state, time and probes in flight |
| CircuitBreaker.LastFailureIsLatest | packages/shared/src/resilience/index.ts:237-243 | the stored time is no earlier than any counted failure |
| CircuitBreaker.OpenWaitsForReset | packages/shared/src/resilience/index.ts:201-208 | a call let in while OPEN comes a full reset timeout after every counted failure |
| CircuitBreaker.OpenForTheWholeTimeout | packages/shared/src/resilience/index.ts:201-243 | an opened circuit stays open and admits nothing for the whole timeout, whatever settles meanwhile |
| CircuitBreaker.ProbeShieldsExactly | packages/shared/src/resilience/index.ts:180-227 | a probe keeps all other calls out, on every continuation, exactly when no other call is in flight as it starts |
| CircuitBreaker.ProbeMayNotBeAlone | packages/shared/src/resilience/index.ts:201-243 | for every threshold and timeout, a run that starts a probe with an earlier call in flight |
| CircuitBreaker.ProbeSuccessCloses | packages/shared/src/resilience/index.ts:216-235 | a lone probe that does not fail closes the circuit with no failure counted, and calls are let in while fewer failures than the threshold settle in a row |
| CircuitBreaker.ProbeFailureReopens | packages/shared/src/resilience/index.ts:237-243 | a lone probe that fails opens the circuit again and no call is let in for the whole timeout |
| CircuitBreaker.ClosedExactly | packages/shared/src/resilience/index.ts:230-243 | a closed circuit stays closed exactly while fewer failures than the threshold settle in a row |
| CircuitBreaker.WaitFor | packages/shared/src/resilience/index.ts:131-133 | a jittered wait within a quarter of the exponential delay, never negative |
| CircuitBreaker.WaitsGrow | packages/shared/src/resilience/index.ts:131-133 | the first wait is about the delay, each next one about `backoff` times the one before |
| CircuitBreaker.WithRetry | packages/shared/src/resilience/index.ts:120-140 | the caller gets the first final attempt, after the right waits and at most retries + 1 calls |
| SpacedRepetition.NextLevel | apps/api/src/learning/learning.constants.ts:3-6 | each level promotes to the next in rank |
| SpacedRepetition.DueByCalendar | apps/api/src/common/domain/spaced-repetition.ts:11-28 | due exactly when the review day plus the interval has come, in calendar days |
| SpacedRepetition.DueAfterDays | packages/shared/src/constants/index.ts:92-99 | level by level, a word comes due 0, 2, 4, 10 or 20 days after its last review |
| SpacedRepetition.QuerySelectsTheDue | apps/api/src/common/domain/spaced-repetition.ts:25-36 | the query form selects exactly the rows the check accepts |
| Learning.PromotesWithRedis | apps/api/src/learning/learning.service.ts:46-98 | with Redis up a request promotes exactly when it completes the set and a word is due, and then clears the set |
| Learning.PromotesWithoutRedis | apps/api/src/learning/learning.service.ts:54-88 | with Redis down only single-game levels can promote, and nothing is kept |
| Learning.LevelCompletedPromotes | apps/api/src/learning/learning.service.ts:179-208 | told of `n` promoted words, exactly the `n` words due at the level are one rank up, dated now, with one more climb; else no row changes, however Redis answers |
| Learning.LearningService.TrackGameCompletion | apps/api/src/learning/learning.service.ts:30-106 | refines `Track` for every combination of Redis answers, an unanswered command being executed or not |
| Learning.LearningService.RemoveFields | apps/api/src/learning/learning.service.ts:79-87 | the removal tells whether the whole set was there |
| Learning.StepPaid | apps/api/src/learning/learning.service.ts:46-88 | every interleaved step, failing Redis commands included, keeps: a stored field was stored after the last answered promotion of its level |
| Learning.TrackIsARun | apps/api/src/learning/learning.service.ts:30-106 | a request nobody interferes with, however Redis answers, is a run of the interleaved requests with the result of `Track` |
| Learning.UpdatePromotes | apps/api/src/learning/learning.service.ts:190-208 | the batch update moves exactly the rows of its ids still at the level |
| Learning.WordCanClimb | apps/api/src/learning/learning.service.ts:46-98 | from any state, waiting and playing a level's games takes a given word one level up |
| Learning.WordCanBeMemorized | apps/api/src/learning/learning.service.ts:46-98 | from any state, some run takes a given word to `v` |
| Learning.SomeWordIsMemorized | packages/shared/src/constants/index.ts:92-99 | a reachable state has a word that went from `x` to `v` |
| Learning.StartsUpdating | apps/api/src/learning/learning.service.ts:79-89 | a request goes on to promote only by removing the whole set or by a removal without answer |
| Learning.PromotionsArePaid | apps/api/src/learning/learning.service.ts:79-89 | between two promotions decided by an answered removal, and before the first, every required game was stored again |
| Learning.PromotedSpaced | apps/api/src/learning/learning.service.ts:190-208 | promoting a due row appends one climb, spaced by the interval of the level it leaves |
| Learning.ClimbsAreSpaced | apps/api/src/learning/learning.service.ts:179-208 | over whole runs a word climbs one level per promotion, each an interval after the previous, however requests race and whichever Redis commands fail |
| Learning.DaysAtEachLevel | packages/shared/src/constants/index.ts:92-99 | on every run, at least 2 days at `0`, 4 at `1` and 10 at `2` before the next climb |
| Learning.SixteenDaysToMemorized | packages/shared/src/constants/index.ts:92-99 | at least 16 calendar days separate leaving `x` from reaching `v` |
| WordSearchGrid.CanPlace | apps/web/src/components/games/word-search/grid.ts:73-82 | true exactly when the run is on the grid and crosses no different letter |
| WordSearchGrid.PlaceWord | apps/web/src/components/games/word-search/grid.ts:95-99 | the word is spelled, existing letters stay, other cells are untouched |
| WordSearchGrid.TryPlace | apps/web/src/components/games/word-search/grid.ts:88-101 | placed at one of the positions drawn, or all 100 are impossible and nothing changed |
| WordSearchGrid.GrowthKeeps | apps/web/src/components/games/word-search/grid.ts:84-112 | letters added later neither unspell a word nor free a blocked position |
| WordSearchGrid.HideWords | apps/web/src/components/games/word-search/grid.ts:84-103 | every placed word is spelled after all overlaps; letters only where placed words put them |
| WordSearchGrid.GenerateGrid | apps/web/src/components/games/word-search/grid.ts:67-115 | all cells are A to Z; placed words are spelled, a subsequence of the list with 2 to 15 letters; words left out had no possible attempt; other cells are filler |
| WordSearchGrid.FillBlanks | apps/web/src/components/games/word-search/grid.ts:105-112 | exactly the blank cells get a drawn letter |
| WordSearchGrid.FindWordInGrid | apps/web/src/components/games/word-search/grid.ts:46-61 | the first straight run in scan order spelling the word; none exactly when no run spells it |
| WordSearchGrid.MatchedExactly | apps/web/src/components/games/word-search/grid.ts:28-44 | a selection is recognised exactly when it spells a remaining word in either direction; the match is the first such word of the list, forwards before backwards |
| WordSearchGrid.ShowHint | apps/web/src/components/games/word-search/grid.ts:33-61 | every remaining word has a hint, and dragging over it from either end finds a remaining word |
| WordSearchGrid.FoundOnce | apps/web/src/components/games/word-search/grid.ts:38-43 | the words found over any series of selections are distinct list words |
| WordSearchGrid.AllFoundExactly | apps/web/src/components/games/word-search/grid.ts:33-61 | on the grid that hides them, some series of drags finds as many words as are hidden exactly when no word is hidden twice |
| Levenshtein.NoCheaperScript | apps/web/src/components/games/test-pronun/pronunciation.ts:23-32 | no edit script is cheaper than the recursive distance |
| Levenshtein.CheapestScript | apps/web/src/components/games/test-pronun/pronunciation.ts:23-32 | some edit script costs exactly the recursive distance |
| Levenshtein.DistanceRange | apps/web/src/components/games/test-pronun/pronunciation.ts:12-35 | between the length difference and the longer length, 0 exactly for equal strings |
| Levenshtein.SimilarityRange | apps/web/src/components/games/test-pronun/pronunciation.ts:12-35 | similarity is in [0, 1], symmetric, 1 exactly for equal strings, 0 exactly when everything changes |
| Levenshtein.FillMatrix | apps/web/src/components/games/test-pronun/pronunciation.ts:16-34 | the corner of the table is the recursive distance |
| Levenshtein.CalculateLevenshteinSimilarity | apps/web/src/components/games/test-pronun/pronunciation.ts:12-35 | the loop computes the similarity of the specification, early returns included |
| Pronunciation.ReplacePairs | apps/web/src/components/games/test-pronun/pronunciation.ts:40-44 | a global replacement changes a word exactly when the pair occurs, and at most halves it |
| Pronunciation.ChangesWhatItMatches | apps/web/src/components/games/test-pronun/pronunciation.ts:48-54 | a rule changes exactly the words it matches, so the inequality test is redundant |
| Pronunciation.ReplacesFirst | apps/web/src/components/games/test-pronun/pronunciation.ts:40-44 | the first occurrence of the pair becomes the one character, what is before it stays, and so on after it |
| Pronunciation.WritesWhatItHears | apps/web/src/components/games/test-pronun/pronunciation.ts:39-46 | what each of the six rules writes, and where |
| Pronunciation.GetPhoneticVariants | apps/web/src/components/games/test-pronun/pronunciation.ts:37-57 | the word first, then exactly the results of matching rules, without repetition |
| Pronunciation.MatchesVariant | apps/web/src/components/games/test-pronun/pronunciation.ts:88-94 | the loop says yes exactly when the spoken word is the target or what a matching rule makes of it |
| Pronunciation.NothingLeft | apps/web/src/components/games/test-pronun/pronunciation.ts:64-71 | normalizing leaves nothing exactly of a text without ASCII letters, digits and underscores |
| Pronunciation.CalculatePronunciationAccuracy | apps/web/src/components/games/test-pronun/pronunciation.ts:59-117 | the score of the normalized texts is that of the specification |
| Pronunciation.Score | apps/web/src/components/games/test-pronun/pronunciation.ts:73-117 | the step-by-step score equals the specification |
| Pronunciation.ScoreBands | apps/web/src/components/games/test-pronun/pronunciation.ts:73-116 | one band per case: 95-100 equal, 75-85 contained, 10-18 unlike, 80-90 sounding alike, 29-75 similar; the floors of 15 and 5 never apply |
| Pronunciation.ConfidenceAdds | apps/web/src/components/games/test-pronun/pronunciation.ts:73-94 | how each of the first four cases grows with the confidence, from 95, 75, 10 and 80 |
| Pronunciation.SimilarWords | apps/web/src/components/games/test-pronun/pronunciation.ts:95-116 | what similar words score: 70 points for the similarity, 5 for a common start or end, less when the lengths differ by over 30%, 10 for confidence, 75 at most |
| Pronunciation.OneWrongLetter | apps/web/src/components/games/test-pronun/pronunciation.ts:95-116 | the exact score of a word of five letters or more with one wrong letter |
| Pronunciation.NothingInCommonScoresTen | apps/web/src/components/games/test-pronun/pronunciation.ts:82-85 | words without a common letter score 10 |
| Pronunciation.ScoreMeansEqual | apps/web/src/components/games/test-pronun/pronunciation.ts:59-117 | for confidence in [0, 1]: in [10, 100], at least 95 exactly for equal strings, at most 90 otherwise |
| Pronunciation.MonotoneInConfidence | apps/web/src/components/games/test-pronun/pronunciation.ts:73-116 | a higher confidence never lowers the score |
| Pronunciation.SilenceCountsAsPart | apps/web/src/components/games/test-pronun/pronunciation.ts:77-79 | an empty transcript scores 75 to 85 |
| Pronunciation.OtherScriptExactly | apps/web/src/components/games/test-pronun/pronunciation.ts:64-79 | for a target in another script: at least 95 exactly when the transcript has no ASCII letter, digit or underscore either, 75 to 85 otherwise |
| Throttler.RedisThrottler.Increment | apps/api/src/common/throttler/redis-throttler.storage.ts:9-29 | the script on the keyspace refines `Hit` and leaves other keys alone |
| Throttler.HitPays | apps/api/src/common/throttler/redis-throttler.storage.ts:9-29 | every request let through is paid for out of a budget no later request restores |
| Throttler.AllowedAtMostTwice | apps/api/src/common/throttler/redis-throttler.storage.ts:9-29 | from any reachable state, an interval of one window lets at most twice the limit through |
| Throttler.BlockRefusesAll | apps/api/src/common/throttler/redis-throttler.storage.ts:10-13 | every request before the end of the block is refused |
| Throttler.WindowLetsLimitThrough | apps/api/src/common/throttler/redis-throttler.storage.ts:14-22 | a window lets through no more than what is left of its limit, unless a block ends before it does |
| Throttler.RefusalEndsAsTold | apps/api/src/common/throttler/redis-throttler.storage.ts:9-29 | a refusal names the moment the client is let in again: refused until then, then the first of a new window |
| Throttler.AdmissionCountsAsTold | apps/api/src/common/throttler/redis-throttler.storage.ts:14-22 | an admission leaves exactly `limit - hits` more at once, and the count starts anew after `timeToExpire` |
| Throttler.ShortBlockExceeds | apps/api/src/common/throttler/redis-throttler.storage.ts:23-28 | a block shorter than the window lets more than twice the limit through |
| Throttler.HalfBlockExceeds | apps/api/src/common/throttler/redis-throttler.storage.ts:23-28 | with a limit of one, a block of at most half the window lets three through |
| Throttler.TwiceTheLimitExactly | apps/api/src/common/throttler/redis-throttler.storage.ts:7-29 | the bound holds for exactly the configurations of `KeepsBound` |
| JobStream.JobController.StreamJob | apps/api/src/import/job.controller.ts:77-121 | accepted exactly below 10 open streams; refines `Opened`, with client gone and job already finished |
| JobStream.JobController.End | apps/api/src/import/job.controller.ts:97-108 | ending is idempotent, lowers the count once and closes the subscription when there is one |
| JobStream.JobController.OnClose | apps/api/src/import/job.controller.ts:109-113 | the client leaving, or its time running out, ends the stream once |
| JobStream.JobController.Send | apps/api/src/import/job.controller.ts:115-117 | writes only while the stream has not ended |
| JobStream.JobController.OnSubscription | apps/api/src/import/job.controller.ts:122-137 | closes a subscription that came too late, reports an unavailable one, else goes on to read again |
| JobStream.JobController.OnSecondRead | apps/api/src/import/job.controller.ts:139-144 | a job that finished meanwhile is shown and ends the stream |
| JobStream.JobController.OnUpdate | apps/api/src/import/job-tracker.service.ts:98-120 | a closed listener ignores updates; a final one is shown and ends the stream |
| JobStream.StepInv | apps/api/src/import/job.controller.ts:77-145 | every step of streams, clients, tracker and publications keeps the whole invariant |
| JobStream.StartsWithTheStored | apps/api/src/import/job.controller.ts:36-54 | a stream starts with the stored status, ending at once when final; else a job in the outbox starts as `pending` and any other is refused |
| JobStream.OpenedShows | apps/api/src/import/job.controller.ts:112-120 | an accepted stream starts with the status it loaded, and ends at once exactly when that is final |
| JobStream.SubscribedShows | apps/api/src/import/job.controller.ts:126-136 | a missing subscription is reported, and ends the stream |
| JobStream.JudgedShows | apps/api/src/import/job.controller.ts:139-144 | the second read is shown exactly when it found the job finished, and ends the stream |
| JobStream.DeliveredShows | apps/api/src/import/job.controller.ts:122-125 | a listener neither closed nor ended shows each update as it comes, and ends exactly after a final one |
| JobStream.EndedMeansTold | apps/api/src/import/job.controller.ts:115-144 | on every run, a stream that ended before its client left has a final status or a refusal as its last line |
| JobStream.LinesAreTrue | apps/api/src/import/job-tracker.service.ts:143-159 | on every run, every status shown was stored for the job, or is `pending` |
| JobStream.OpenStreamsAreCounted | apps/api/src/import/job.controller.ts:24-25 | `openStreams` equals the user's unended streams, at most 10, with no entry at zero |
| JobStream.EndedStreamsAreClosed | apps/api/src/import/job.controller.ts:97-128 | an ended stream whose handler is over has closed its subscription |
| JobStream.ConclusionIsLast | apps/api/src/import/job.controller.ts:115-144 | a final status or refusal is the last line and the stream has ended |
| JobStream.NothingAfterTheEnd | apps/api/src/import/job.controller.ts:99-117 | nothing is written after the end, on any run |
| JobStream.FinalStatusIsNotMissed | apps/api/src/import/job-tracker.service.ts:143-159 | while the stored status is final, a waiting stream has one on its way, unless the publication of a final status was lost |
| JobStream.QuietMeansTold | apps/api/src/import/job.controller.ts:122-144 | with nothing on the way, every watching stream of a finished job has ended |
| JobStreamProvisos.NeverStuckExactly | apps/api/src/import/job.controller.ts:122-144 | no stream of a finished job ever waits for nothing, on all runs, exactly under the four provisos |
| JobStreamProvisos.UnansweredRereadMisses | apps/api/src/import/job.controller.ts:139-144 | a run where only the failed second read leaves a stream waiting for nothing |
| JobStreamProvisos.LostPublicationMisses | apps/api/src/import/job-tracker.service.ts:153-154 | a run where only the lost publication of a final status leaves a stream waiting for nothing |
| JobStreamProvisos.UnrecordedJobMisses | apps/api/src/import/job-tracker.service.ts:147-148 | a run where only the missing record of the job leaves a stream waiting for nothing |
| JobStreamProvisos.ExpiredRecordMisses | apps/api/src/import/job-tracker.service.ts:151-153 | a run where only the expiry of the record leaves a stream waiting for nothing |
| JobStreamProvisos.LastLineExactly | apps/api/src/import/job.controller.ts:115-144 | on all runs, a stream that ended on a final status shows the one that is stored, exactly when no final status is ever replaced by another |
| JobStreamProvisos.FailedThenCompleted | apps/api/src/import/import-queue.service.ts:176-185 | a run where a stream ends on `failed` and the job is completed afterwards |
| JobStreamProvisos.QuietStreamsTellTheEnd | apps/api/src/import/job.controller.ts:122-144 | under all provisos, a stream whose client stayed, with nothing on its way, has ended on the stored final status |
| ActivityCursor.BytesOfSextets | apps/api/src/activity/activity-query.service.ts:54-58 | base64 decoding undoes encoding, for every number of bytes |
| ActivityCursor.ParsesItself | apps/api/src/activity/activity-query.service.ts:55-66 | the JSON parser reads the cursor's text back as its two members |
| ActivityCursor.CursorRoundTrips | apps/api/src/activity/activity-query.service.ts:54-74 | decoding the cursor of any row gives the row's time and id back |
| ActivityPagination.Take | apps/api/src/activity/activity-query.service.ts:11-11 | page sizes from 1 to 20 are honoured, smaller ones become 1 and larger ones 20 |
| ActivityPagination.ListIsTop | apps/api/src/activity/activity-query.service.ts:10-35 | a page is the top of the rows below a key, complete exactly when there is no next one |
| ActivityPagination.WalkDescends | apps/api/src/activity/activity-query.service.ts:13-33 | a walk over a changing table lists strictly descending keys, without repetition |
| ActivityPagination.WalkMissesNothing | apps/api/src/activity/activity-query.service.ts:13-33 | a walk that ends has shown every row present throughout |
| ActivityPagination.WalkInventsNothing | apps/api/src/activity/activity-query.service.ts:13-33 | every row shown is the user's and was there when its page was read |
| ActivityPagination.FollowIsWalk | apps/api/src/activity/activity-query.service.ts:10-35 | sending back cursor texts, starting from any text at all, is the walk over keys |
| ActivityPagination.ShownExactlyOnce | apps/api/src/activity/activity-query.service.ts:10-35 | a client following cursor texts to the end sees a row present throughout exactly once, newest first, whatever is added or removed |
| ActivityPagination.StaticWalkListsAll | apps/api/src/activity/activity-query.service.ts:10-35 | on an unchanging table the walk ends and lists everything in order, for any page sizes |
| DailySchedule.Sorted | apps/api/src/scheduler/daily-schedule.ts:8-8 | the sorted hours are a permutation of the hours |
| DailySchedule.NextRunIsFirst | apps/api/src/scheduler/daily-schedule.ts:14-27 | the wait is positive, ends at a listed hour, and passes none on the way |
| DailySchedule.NextRunWithinMaxGap | apps/api/src/scheduler/daily-schedule.ts:6-27 | no wait exceeds the longest gap |
| DailySchedule.DistinctAttains | apps/api/src/scheduler/daily-schedule.ts:6-11 | with distinct hours some second waits exactly the longest gap |
| DailySchedule.RepeatedHourIsAWholeDay | apps/api/src/scheduler/daily-schedule.ts:9-9 | a repeated hour makes the gap a whole day |
| DailySchedule.MaxGapAttainedExactly | apps/api/src/scheduler/daily-schedule.ts:6-27 | the longest gap is attained exactly when the hours are distinct or all equal |

## Left out

- Brokers and stores: MySQL transactions, Redis commands and broker events are atomic steps; dead-lettering is reliable; a rejected message returns with its rejection counted, a lost consumer's message as redelivered.
- Clocks: one monotone clock per model, in whole seconds where the column stores seconds (sessions, claims), without the sub-second rounding of the columns; time zones and daylight saving.
- Secrets and hashing: a secret stands for its hash, and new secrets are never seen before.
- ImportGuarantees.ExactlyOnce: does not model the 7-day cleanup of `applied_jobs`, after which a very late copy could be saved again.
- ImportGuarantees.NothingLost: journal and tracker writes are not part of this state machine; ImportAcceptance and ImportWorker model them for one request and one delivery. Publishing is not tied to claims there, so it covers every relay behaviour.
- ImportWorker.HandleIsARun: covers deliveries that no other process disturbs apart from the loss of the channel; disturbed ones are covered by the pipeline's own steps.
- ImportWorker.ImportQueueService.Handle: activity-journal notes, logging and the dashboard cache are not modelled; a malformed payload is one case, not its JSON.
- ImportAcceptance.BulkWordsService.Add: a tracker record left under another id, when its creation fails half-way, is left out; the package lookup before the batch and the note of a rejected spreadsheet are left out.
- RefreshSessions: the revoking endpoint appears as one step that removes the row; the cleanup of expired rows is the same step.
- WordStore.Store.UpsertWords: keys are exact texts compared character by character, without the database's collation; deadlock reruns appear in ImportPipeline.
- WordStore.RunKeeps: each read before a transaction (an edit's row with its base word, a copy's rows, a delete-all's ids) is one atomic step.
- WordStore.Store.CopyPublicPackage: the journal line is left out, as are renaming and toggling a package and account deletion.
- Learning.ClimbsAreSpaced: manual level edits are left out; an edit that gives the package its own copy of a detail is modelled.
- Learning: streaks, statistics and several users or packages (each has its own hash and rows).
- CircuitBreaker.WithRetry: `isTransientError` and `withTimeout` are left out; the sleep is the list of waits; real arithmetic stands for floating point.
- WordSearchGrid.GenerateGrid: `normalizeWord` is any function into strings of A to Z; random numbers are arbitrary draws within range. The drag selection itself is left out.
- Pronunciation.CalculatePronunciationAccuracy: lower-casing is any function; reals stand for floating-point numbers, without rounding error.
- Levenshtein.FillMatrix: the table is allocated whole instead of row by row.
- Throttler.RedisThrottler.Increment: the in-memory fallback and the rounding of the reply to seconds are left out; a Redis key lives through its expiry millisecond.
- Throttler.AllowedAtMostTwice: windows of zero length are excluded.
- JobStreamProvisos.NeverStuckExactly: an update is one step that writes any status, which covers updates written over a stale read (the last status written then counts as the job's); ownership checks only appear as a refusal; the subscriber connection shared by the streams does not drop.
- ActivityCursor.CursorRoundTrips: dates as text are any formatting and parsing functions that undo each other and need no escaping; row ids are plain ASCII text, as UUIDs are. In decoding, a byte outside ASCII, or half of an escaped surrogate pair, reads as the replacement character.
- ActivityPagination.ListIsTop: only the keys of the rows are listed, not their other columns; ids are ordered character by character.
- DailySchedule.NextRunIsFirst: an empty list of hours is excluded; the cron expression is left out.
- Gemini enrichment, spreadsheets, text to speech, mail, guards, validation and React components: wiring around libraries.
