# A verified model of the trace gateway

The trace gateway accepts trace batches over HTTP, stores them in a durable
inbox and delivers them upstream from one worker. This project models that core
in Dafny and proves what it promises: an acknowledged upload is not lost, a
repeated one is not stored twice, the queue drains in order, a client cannot
forge the identity of a trace, and credentials are redacted down to a depth and
size that the project states exactly.

How the files fit together, lower layers first:

- `Prelude`, `Ordering`, `Keys`, `Text`, `Json`, `Attributes`: vocabulary; ordered
  enumeration of a set of numbers; bucket keys as bytes.
- `InboxModel`: the five buckets as a value, and each transaction as a function
  that commits a new value or aborts. `InboxInvariants`: the cross-bucket
  invariant (`Consistent`), the abstract queue (`Queue`) and what every
  transaction does to them.
- `BoltStore`: the store as an object that updates its buckets in place, rolls
  back on error and keeps a ghost durable image; each method is proved against
  the transactions of `InboxModel`.
- `InboxRuns`: whole runs with failed fsyncs, restarts and crashes. `StoreRuns`:
  whatever is called on a `BoltStore` is such a run. `StoreLifetimes`: what its
  answers promise, over calls, restarts and crashes.
- `Lifecycle`: what each transaction writes, field by field, and when a collection
  takes it away, over single operations and runs.
- `Admission`: growth projection and storage guard in 64-bit arithmetic.
- `Backoff`, `Delivery`, `Drain`: retry times, one delivery, and the loop.
  `Outcomes`: where a batch ends up for each answer, by status code.
- `WorkerProtocol`: upload handlers, worker, collector, restarts and crashes as
  atomic steps that interleave freely. `WorkerProgress`: how long it takes them to
  empty the queue.
- `RateLimiter`: the fixed-window limiter over call histories, and the limiter
  without a table that it refines.
- `Redaction`, `RedactionLimits`, `TokenUsage`, `Canonical`, `Accounting`, `Export`,
  `Generations`: rewriting of an export request. `RedactionTerms`, `UsageReports` and
  `ExportedAttributes` say what that comes to in the characters of keys, the fields of
  usage reports and the names of attributes.

`dafny verify dfyconfig.toml` verifies everything.

## Conventions

- A bbolt update restores every bucket and the sequence counter on error; the
  database is opened without automatic syncing, so a crash may leave any image
  committed since the last successful fsync, and a restart ends with one.
- JSON encoding of records is the identity, a cursor visits keys in ascending
  byte order, a Go map is visited in an arbitrary order, SHA-256 is a string.
- A Go `time.Time` is an integer number of nanoseconds with 0 for the zero time.
- Cancellation of a context is two booleans, before the writer lock and inside
  the transaction; the fsync's success is a boolean; the answer of the storage
  guard is a boolean where the guard itself is not the subject.
- Jitter is any function that stays between 0 and the delay.
- Payload rendering, JSON and base64 text, model-name and cost formatting are
  arbitrary functions (`Codec`, `Renderer`); statements hold for all of them.

## What the model brought to light

- A "duplicate" answer after a failed fsync is not durable, although
  docs/runbooks/trace-upload-continuity.md treats it as a transfer of ownership.
  `DuplicateIsDurableIffSynced` gives the exact condition.
- An upload whose fsync failed is the one kind of queue entry that no wakeup
  covers until a repeated upload, a timer or a restart (`FailedFsyncWakesNobody`,
  `DuplicateUploadWakesWorker`).
- `Retry-After` values above 9223372036 seconds are ignored instead of capped;
  the comment at worker.go:19-21 suggests a cap.
- For an odd maximum the backoff may exceed min(max, base*2^attempts) by 1 ns.
- Rounding up a record of size MaxInt64 - page + 1 leaves the int64 range and
  wraps back; the result is still exact (`WrapsBack`).
- The limiter admits the first call of a window even if its limit is below one,
  so bounds are stated with max(limit, 1).
- Where a logical call is itself an llm attempt of another one, the projected
  accounting can depend on the map order; `OrderIsIrrelevantIff` says exactly when.
- Redaction drops the rest of a list behind the first attribute that is nil or has
  no value, and behind the 256th. `KeysSurviveIff` says exactly when keys are lost,
  `ValuelessAttributeCutsList` is an input.
- Accounting gained from a logical call stands last in the attempt's list and is the
  first to be cut: `GainSurvivesAsFarAsReached`, `CutAttemptExportsNoCost`.
- JSON inside a string is not looked into, and so passes with any credentials in it,
  if the string is found deeper than level 12 or is longer than 1 MiB, while request
  bodies may have 8 MiB (server.go:30). `EmbeddedJsonIsRedactedIff` is the exact
  condition; `NestedCredentialIsKept` and `OversizedCredentialIsKept` are inputs.

## Model

| member | source | states |
|---|---|---|
| Keys.ReceiptKeyInjective | services/trace-gateway/internal/inbox/store.go:661-666 | for ids without NUL, two records share a bucket key exactly when account and batch id both agree |
| Keys.SequenceKeyOrder | services/trace-gateway/internal/inbox/store.go:668-672 | 8-byte big-endian FIFO keys compare bytewise exactly as their sequence numbers do, and are equal only for equal numbers |
| Keys.CursorVisitsInSequenceOrder | services/trace-gateway/internal/inbox/store.go:227-231 | a bytewise cursor over the FIFO bucket enumerates all its records in ascending sequence order |
| InboxInvariants.AcceptKeepsConsistency | services/trace-gateway/internal/inbox/store.go:141-219 | acceptance keeps the cross-bucket invariant: FIFO and batches in bijection, a batch exactly for each pending receipt, quarantine only under quarantined receipts, digests agreeing, sequences distinct and bounded by the counter |
| InboxInvariants.RetryKeepsConsistency | services/trace-gateway/internal/inbox/store.go:279-297 | recording a retry keeps the cross-bucket invariant |
| InboxInvariants.DeliveredKeepsConsistency | services/trace-gateway/internal/inbox/store.go:299-321 | recording a delivery keeps the invariant, and for a stored batch the transaction commits, so the missing-receipt error cannot occur |
| InboxInvariants.QuarantinedKeepsConsistency | services/trace-gateway/internal/inbox/store.go:323-355 | the same for quarantining |
| InboxInvariants.BatchHasReceipt | services/trace-gateway/internal/inbox/store.go:624-640 | every stored batch has a receipt to complete, so "receipt is missing" is unreachable |
| InboxInvariants.ReplayKeepsConsistency | services/trace-gateway/internal/inbox/store.go:503-551 | replaying one payload keeps the invariant; the branch that rebuilds a missing receipt is never needed |
| InboxInvariants.HeadIsNeverMissing | services/trace-gateway/internal/inbox/store.go:221-277 | whenever the queue is not empty its head is in the batch table, so "FIFO references a missing batch" is unreachable |
| InboxInvariants.QueueListsPending | services/trace-gateway/internal/inbox/store.go:221-249 | the abstract queue lists every pending key, each exactly once |
| InboxInvariants.AcceptAppends | services/trace-gateway/internal/inbox/store.go:191-203 | an accepted key goes to the end of the queue and nothing else in the queue moves |
| InboxInvariants.CompletionPopsHead | services/trace-gateway/internal/inbox/store.go:299-355 | completing the head, by delivery or quarantine, pops exactly the front of the queue |
| InboxInvariants.CollectIsExact | services/trace-gateway/internal/inbox/store.go:363-426 | a collection leaves counter, batches and FIFO alone, removes precisely the expired receipts (by age: CollectGoesByAge) and their payloads, then keeps exactly the newest payloads up to the cap |
| InboxInvariants.CappedKeepsNewest | services/trace-gateway/internal/inbox/store.go:431-457 | evicting the lowest sequence one by one leaves at most the cap, every survivor newer than every evicted payload, and evicts nothing below the cap |
| InboxInvariants.KeepsNewestUnique | services/trace-gateway/internal/inbox/store.go:431-457 | that description determines the surviving payloads: any two tables satisfying it are equal |
| InboxInvariants.CollectIsIdempotent | services/trace-gateway/internal/inbox/store.go:363-426 | a second collection at the same time changes nothing |
| InboxInvariants.CollectGoesByAge | services/trace-gateway/internal/inbox/store.go:376-411 | by age, without naming an expiry test: a receipt goes exactly if it was delivered the receipt retention ago or longer, or quarantined the quarantine retention ago or longer; all others stay as they are |
| InboxInvariants.CollectedNothing | services/trace-gateway/internal/inbox/store.go:412-425 | if the returned count is zero the collection changed no bucket, so skipping the fsync then loses nothing |
| InboxInvariants.AcceptanceOrderIsOrdered | services/trace-gateway/internal/inbox/store.go:470-495 | the order in which replay-all visits the quarantine lists every payload, in strictly ascending sequence |
| InboxInvariants.AcceptanceOrderUnique | services/trace-gateway/internal/inbox/store.go:470-495 | any list of all quarantined keys in strictly ascending sequence is that order, so sorting gives the same one as repeatedly taking the oldest |
| InboxInvariants.ReplayAllAppendsInAcceptanceOrder | services/trace-gateway/internal/inbox/store.go:470-501 | replay-all commits exactly when the guard admits every payload; then the queue is the old queue followed by all quarantined keys in acceptance order, attempts reset and quarantine empty; one refusal changes nothing |
| BoltStore.Open | services/trace-gateway/internal/inbox/store.go:77-139 | refused exactly for an empty path, a negative option, or a file that cannot be opened, initialised or synced, each with its own error; else a fresh open store whose live and durable contents are the file, with the retentions in force |
| InboxModel.RetentionOf | services/trace-gateway/internal/inbox/store.go:81-93 | the retentions and the cap in force are positive, options that were set are kept, and an unset quarantine retention follows the receipt retention |
| Lifecycle.DefaultRetention | services/trace-gateway/internal/inbox/store.go:30-93 | without options receipts and quarantined payloads are kept for thirty days, and at most a thousand of the latter |
| BoltStore.SettlesByCause | services/trace-gateway/internal/inbox/store.go:591-609 | an operation on a cancelled context or a closed store says so and changes nothing; any other succeeds exactly if its transaction commits and its fsync succeeds, and then live and durable contents are what it wrote |
| BoltStore.BoltStore.Accept | services/trace-gateway/internal/inbox/store.go:141-219 | updates the buckets in place to exactly the acceptance transaction, answers a known key without writing, rolls back on any error, and moves the durable image exactly when the fsync succeeds |
| BoltStore.BoltStore.PeekEligible | services/trace-gateway/internal/inbox/store.go:221-249 | returns the head of the abstract queue if it is due, nothing if it is delayed or the queue is empty |
| BoltStore.BoltStore.NextRetryAt | services/trace-gateway/internal/inbox/store.go:255-277 | returns the persisted retry time of the head of the abstract queue, or the zero time |
| BoltStore.BoltStore.MarkRetry | services/trace-gateway/internal/inbox/store.go:279-297 | whole new state of a retry: attempts, error class and retry time of this batch only; a zero retry time is refused first |
| BoltStore.BoltStore.MarkDelivered | services/trace-gateway/internal/inbox/store.go:299-321 | whole new state of a delivery, rollback on every error, durable exactly when synced |
| BoltStore.BoltStore.MarkQuarantined | services/trace-gateway/internal/inbox/store.go:323-355 | whole new state of a quarantine, an empty error class refused first, rollback on every error, durable exactly when synced |
| BoltStore.BoltStore.CollectReceipts | services/trace-gateway/internal/inbox/store.go:363-426 | the two loops together reach exactly the specified collection, which takes receipts by the age of their own kind; return the drop in receipts plus quarantine, and sync only if something was removed |
| BoltStore.BoltStore.EvictQuarantineOverflow | services/trace-gateway/internal/inbox/store.go:431-457 | the sort-and-delete loop removes exactly what dropping the oldest one by one would, and counts it |
| BoltStore.BoltStore.ExpireInTransaction | services/trace-gateway/internal/inbox/store.go:363-411 | the cursor loop removes exactly the expired receipts and their payloads, whatever the visiting order, and counts both |
| BoltStore.BoltStore.QuarantineBySequence | services/trace-gateway/internal/inbox/store.go:431-449 | gathering and sorting the quarantine yields every key once, in acceptance order |
| BoltStore.SortEntriesSorts | services/trace-gateway/internal/inbox/store.go:446-448 | sorting entries with distinct sequences gives an ascending list of the same entries |
| BoltStore.BoltStore.ReplayQuarantined | services/trace-gateway/internal/inbox/store.go:462-466 | one payload moves back to the end of the queue, or nothing changes |
| BoltStore.BoltStore.ReplayAllQuarantined | services/trace-gateway/internal/inbox/store.go:470-501 | the loop over the sorted keys equals the specified replay of all, undone as a whole on the first refusal |
| BoltStore.BoltStore.Sync | services/trace-gateway/internal/inbox/store.go:553-560 | a successful sync makes the live contents durable; no sync changes the buckets |
| BoltStore.BoltStore.Close | services/trace-gateway/internal/inbox/store.go:562-572 | closing syncs once and for all; later operations report closed |
| InboxRuns.RunKeepsOk | services/trace-gateway/internal/inbox/store.go:591-609 | over any run of operations, failed fsyncs, restarts and crashes, every image a crash may leave is consistent and every acknowledged key is in all of them |
| InboxRuns.EffectKeepsConsistency | services/trace-gateway/internal/inbox/store.go:141-551 | every operation keeps the cross-bucket invariant |
| InboxRuns.ForgottenIffExpired | services/trace-gateway/internal/inbox/store.go:363-411 | a receipt disappears exactly when a collection finds it expired; no other operation ever removes one |
| InboxRuns.AcknowledgedSurvivesEveryCrash | services/trace-gateway/internal/inbox/store.go:141-219 | after any run from the empty inbox, whatever image a crash leaves still owns every acknowledged upload: pending with its payload, delivered, or quarantined |
| InboxRuns.AcceptedIsDurable | services/trace-gateway/internal/inbox/store.go:191-219 | an upload answered "accepted" is, payload and receipt, in the only image a crash could leave |
| InboxRuns.DuplicateIsDurableIffSynced | services/trace-gateway/internal/inbox/store.go:159-170 | an upload answered "duplicate" is in every image a crash may leave if and only if an fsync has succeeded since its key was committed |
| InboxRuns.DuplicateWithoutSyncCanBeLost | services/trace-gateway/internal/inbox/store.go:213-219 | concrete run showing the condition is needed: commit, failed fsync, retry answered "duplicate", crash, and the key is gone |
| InboxRuns.IdempotentUntilForgotten | services/trace-gateway/internal/inbox/store.go:159-170 | from the moment a key is known, through retries, quarantine, eviction, replay, failed fsyncs and restarts, the same digest gets "duplicate" with the original time and any other a conflict, with no bucket changed, until a collection finds its receipt expired |
| InboxRuns.AcknowledgedStaysIdempotent | services/trace-gateway/internal/inbox/store.go:159-170 | an acknowledged key keeps that answer in every image a crash may leave as well |
| InboxRuns.KeysMoveAlongEdges | services/trace-gateway/internal/inbox/store.go:141-551 | every operation moves every key only along absent to pending, pending to delivered or quarantined, quarantined to pending or evicted, and terminal to absent, and only the named operation may take each edge |
| InboxRuns.PayloadsAreConserved | services/trace-gateway/internal/inbox/store.go:141-551 | over any crash-free run from the empty inbox, acceptances answered plus acceptances whose fsync failed equal payloads delivered plus payloads deleted by collection plus batches plus quarantine |
| StoreRuns.SettledIsNext | services/trace-gateway/internal/inbox/store.go:591-609 | a settled transaction of the store object is one step of the run model: same buckets, same disk image |
| StoreRuns.AcceptIsNext | services/trace-gateway/internal/inbox/store.go:141-219 | the same for acceptance; and an upload answered by the store is an acknowledgement of the run, unless a failed fsync of its key is still outstanding |
| StoreRuns.CollectIsNext | services/trace-gateway/internal/inbox/store.go:363-426 | the same for collection, whose fsync is skipped exactly if nothing was removed |
| StoreRuns.PerformAll | services/trace-gateway/internal/inbox/store.go:141-609 | any sequence of calls on a store, cancelled, closed or failing its fsyncs at will, leaves buckets and disk image where the run of exactly their events leads, and every reply is the one due to its call in the state it found |
| StoreLifetimes.AnsweredIsAcked | services/trace-gateway/internal/inbox/store.go:141-219 | an upload answered accepted, or duplicate with no failed fsync of its key outstanding, is acknowledged after all further calls, unless one of them collects its receipt as expired |
| StoreLifetimes.ServeLife | services/trace-gateway/internal/inbox/store.go:77-609 | a store opened on what an earlier run left and called at will answers every call as due; at the end its buckets and its disk own every upload so answered and every one acknowledged before, unless collected as expired |
| StoreLifetimes.ServeLives | services/trace-gateway/internal/inbox/store.go:77-609 | the same for any number of process lives, each opened on the image that the restart or crash before it left |
| StoreLifetimes.AnsweredOutlivesTheProcess | services/trace-gateway/internal/inbox/store.go:141-219 | what a reply promised in one life is owned by the image every later life finds, whichever image each crash picks, unless collected as expired |
| Lifecycle.UploadIsStored | services/trace-gateway/internal/inbox/store.go:171-219 | a new upload the guard admits is stored field by field as it came: no attempts, no error, due at once, the next sequence number, a pending receipt with the time of acceptance; no other key is touched |
| Lifecycle.RepeatIsAnswered | services/trace-gateway/internal/inbox/store.go:159-170 | a known key with the same digest is answered duplicate with the receipt's time, with another digest a conflict, and nothing changes |
| Lifecycle.ValidEnvelopeIff | services/trace-gateway/internal/inbox/store.go:642-654 | an envelope is valid exactly if both ids are non-empty and free of NUL and the digest is 64 characters from 0123456789abcdef |
| Lifecycle.RetryIsStored | services/trace-gateway/internal/inbox/store.go:279-297 | a retry adds one attempt and records time and reason on its batch alone, which is then due exactly from that time on |
| Lifecycle.DeliveryIsStored | services/trace-gateway/internal/inbox/store.go:299-321 | a delivery leaves no batch, no quarantined payload, and a receipt that says delivered, when, with the digest of the batch; no other key is touched |
| Lifecycle.QuarantineIsStored | services/trace-gateway/internal/inbox/store.go:323-355 | a quarantine keeps the whole batch as payload and a receipt that says quarantined, when and why; no other key is touched |
| Lifecycle.DeliveredIsCollectedWhenDue | services/trace-gateway/internal/inbox/store.go:376-395 | a key delivered at t is forgotten by a collection at now if and only if t + receipt retention <= now |
| Lifecycle.QuarantinedIsCollectedWhenDue | services/trace-gateway/internal/inbox/store.go:376-411 | a key quarantined at t is forgotten if and only if t + quarantine retention <= now, and then its payload is gone too |
| Lifecycle.CompletedUntilDue | services/trace-gateway/internal/inbox/store.go:363-411 | over any run without crash, what was delivered or quarantined at t stays on record so, until a collection at or after t plus the retention of its kind, or its replay |
| Lifecycle.CompletedThenCollected | services/trace-gateway/internal/inbox/store.go:363-411 | after any such run a collection at now forgets it if and only if t plus that retention <= now |
| Lifecycle.ReplayedIsFresh | services/trace-gateway/internal/inbox/store.go:503-551 | a replayed payload is queued with the envelope and acceptance time it had, no attempts, no error, due at any time, under the next sequence, its receipt pending again; no other key is touched |
| Lifecycle.ReplayAnswers | services/trace-gateway/internal/inbox/store.go:503-514 | a replay is refused for an unknown key before it is refused for space, and commits otherwise |
| Lifecycle.AllReplayedAreFresh | services/trace-gateway/internal/inbox/store.go:470-501 | the same of every payload replayed together, the i-th in acceptance order under the i-th new sequence |
| Admission.GrowthIsExact | services/trace-gateway/internal/inbox/store.go:683-700 | for a positive page size the projected growth equals min(MaxInt64, (2*ceil(record/page)+ceil(alloc/page))*page) as a mathematical integer |
| Admission.GrowthIsMonotone | services/trace-gateway/internal/inbox/store.go:683-700 | a larger record never projects less growth |
| Admission.GrowthCoversRecord | services/trace-gateway/internal/inbox/store.go:674-700 | unsaturated growth covers twice the bytes of key, batch, receipt and leaf overhead plus the allocation chunk, and never falls when one of them grows |
| Admission.RecordIsThreeEntries | services/trace-gateway/internal/inbox/store.go:677-687 | the bytes of a record are those of its three bucket entries: key and batch, eight bytes and key, key and receipt, with 16 bytes of header each |
| Admission.WrapsBack | services/trace-gateway/internal/inbox/store.go:690-694 | the rounding addition leaves the int64 range for exactly one record size the guard lets through, and the subtraction brings it back to the exact value |
| Admission.GuardIsExact | services/trace-gateway/internal/inbox/store.go:731-774 | the guard admits exactly when, over the integers, the grown file fits the ceiling and the remaining free space keeps the reserve, for every limit in force |
| Admission.SaturatedGrowthIsRefused | services/trace-gateway/internal/inbox/store.go:683-774 | an admitted saturated projection never hides a true growth that breaks the ceiling |
| RateLimiter.WindowLimiter.Allow | services/trace-gateway/internal/server/server.go:443-468 | table and answer after the call, sweep loop included, for any map order |
| RateLimiter.HistoryKeepsBounds | services/trace-gateway/internal/server/server.go:443-468 | after any history of calls the table holds at most its maximum and every count is between 1 and max(limit, 1) |
| RateLimiter.EndedWindowIsNeverRefused | services/trace-gateway/internal/server/server.go:448-457 | a caller whose own window has ended is admitted however full the table is |
| RateLimiter.HistorySpreads | services/trace-gateway/internal/server/server.go:443-468 | over any history with non-decreasing times, how a key's admissions are spread around its latest window, even after the table dropped it |
| RateLimiter.AtMostTwoWindowsWorth | services/trace-gateway/internal/server/server.go:443-468 | in any span of one window length a key gets at most twice the window's capacity |
| RateLimiter.SweepingChangesNoDecision | services/trace-gateway/internal/server/server.go:443-468 | refinement: over any history with non-decreasing times the bounded, lazily swept table decides every call as a limiter that never forgets a window |
| RateLimiter.WindowsCountAdmissions | services/trace-gateway/internal/server/server.go:443-468 | the count of a remembered window is the number of calls let in since it started, none past its end, and a caller without one was never let in |
| RateLimiter.AdmittedIff | services/trace-gateway/internal/server/server.go:447-467 | exact admission: within a caller's window a call is let in if and only if fewer than the limit were let in since it started; otherwise if and only if fewer callers than the maximum have a window covering that time |
| RateLimiter.CallersAreDistinct | services/trace-gateway/internal/server/server.go:446 | token and source share a window exactly if both agree, for tokens without a NUL |
| Backoff.Normalized | services/trace-gateway/internal/delivery/worker.go:73-101 | normalised options satisfy 0 < base <= max with positive cap and limit; valid options are kept as they are |
| Backoff.DoubledDelay | services/trace-gateway/internal/delivery/worker.go:239-251 | the doubling loop never overflows int64 and ends with the closed form of the ceiling |
| Backoff.CeilingIsMonotone | services/trace-gateway/internal/delivery/worker.go:239-251 | more attempts never shorten the ceiling |
| Backoff.CeilingIsCappedDoubling | services/trace-gateway/internal/delivery/worker.go:239-251 | the ceiling is min(max, base*2^attempts), one nanosecond more exactly when base*2^attempts is max - 1 after at least one attempt, never for an even max |
| Backoff.DelaySecondsAreHonoured | services/trace-gateway/internal/delivery/worker.go:271-287 | delay-seconds are honoured exactly from 1 to 9223372036 and ignored otherwise |
| Backoff.PaddedDelayIsHonoured | services/trace-gateway/internal/delivery/worker.go:271-281 | the same with any white space around the digits |
| Backoff.DateIsHonoured | services/trace-gateway/internal/delivery/worker.go:282-286 | a date asks to wait exactly until then, and a past one for nothing |
| Backoff.OthersAskForNothing | services/trace-gateway/internal/delivery/worker.go:271-287 | a number that is not positive or too large, and what is neither number nor date, asks for nothing |
| Backoff.FullJitter | services/trace-gateway/internal/delivery/worker.go:239-269 | the method computes the longest of jittered delay, capped Retry-After and the minimum |
| Backoff.RetryTimeIsBounded | services/trace-gateway/internal/delivery/worker.go:239-269 | the persisted retry time is at least 1 ms ahead, at least the capped Retry-After ahead, and at most max(maxRetry, cap, 1 ms) ahead |
| Delivery.Worker.DeliverHead | services/trace-gateway/internal/delivery/worker.go:144-163 | false exactly if nothing was due; else the transaction that the upstream answer calls for (by status: OutcomeByStatus) is applied to the head, with its rollback and fsync behaviour |
| Drain.Run | services/trace-gateway/internal/delivery/worker.go:115-142 | the loop leaves the store in the state that the sends it served, in order, produce; it goes on only after recording durably what was due; it fails only for a closed store or, in the pass just served, a failed fsync, and only in a pass that is not cancelled; else it ends only by cancellation or with the rounds |
| Drain.OutcomeNeverAborts | services/trace-gateway/internal/delivery/worker.go:144-163 | recording the outcome of the head never meets a missing batch or receipt |
| Drain.SendUsesWork | services/trace-gateway/internal/delivery/worker.go:115-163 | every send strictly lowers a measure of (queue, attempts left): the queue gets shorter, or its head comes one attempt closer to its budget |
| Drain.DrainTerminates | services/trace-gateway/internal/delivery/worker.go:115-163 | with no arrivals and finitely many retryable answers a batch, the queue is empty after at most as many sends as there is work |
| Drain.OperatorRejectionsDrainExactly | services/trace-gateway/internal/delivery/worker.go:208-226 | with only 401, 403 and 404 answers, n fresh batches are gone after n*limit sends and not one earlier |
| Outcomes.ClassifiedByStatus | services/trace-gateway/internal/delivery/worker.go:208-226 | by status code and attempts: success exactly for 200 to 299; final rejection exactly for a 4xx other than 408, 429, 401, 403, 404, or for one of the last three at the last permitted attempt; a retry for all else and every send error |
| Outcomes.OutcomeByStatus | services/trace-gateway/internal/delivery/worker.go:144-163 | over the buckets: the head is delivered with its payload gone if and only if the answer is 200 to 299; in quarantine under upstream_<status> if and only if finally rejected; else still the head with one more attempt, its retry time and its error class; no other key is touched |
| Outcomes.RetryDoublesWithAttempts | services/trace-gateway/internal/delivery/worker.go:239-269 | without Retry-After the persisted retry time is the answer's time plus the jittered min(max, base*2^attempts) of the batch's own attempts, 1 ms at least, for an even maximum |
| Outcomes.RetryWaitsForDate | services/trace-gateway/internal/delivery/worker.go:253-287 | with a date in Retry-After the persisted retry time is not before that date, up to the cap |
| Outcomes.DefaultOptions | services/trace-gateway/internal/delivery/worker.go:17-101 | options that are not positive become one second, five minutes, one hour and six attempts, the base never above the maximum |
| Outcomes.ReplayedDrainExactly | services/trace-gateway/internal/inbox/store.go:503-551 | n payloads replayed into an empty queue have their whole budget again: with only 401, 403 and 404 answers they are gone after n*limit sends and not one earlier |
| WorkerProtocol.StepKeepsOk | services/trace-gateway/internal/delivery/worker.go:105-192 | every step of handlers, worker, collector, restarts, offline replays and crashes keeps the protocol invariant |
| WorkerProtocol.PeekKeepsOk | services/trace-gateway/internal/delivery/worker.go:144-148 | a peek taken without the writer lock keeps the invariant and never meets a missing batch |
| WorkerProtocol.ReadRetryKeepsOk | services/trace-gateway/internal/delivery/worker.go:165-167 | the same for reading the head's retry time, also when an upload came in since the peek |
| WorkerProtocol.EveryReachedWorldIsOk | services/trace-gateway/internal/delivery/worker.go:105-192 | the invariant holds after every possible interleaving |
| WorkerProtocol.SleepingWorkerMissesNothing | services/trace-gateway/internal/delivery/worker.go:169-192 | no lost wakeup: if the worker sleeps without a timer and the slot is empty, every queued batch belongs to an upload that has yet to trigger or whose fsync failed since the worker last looked at the queue |
| WorkerProtocol.TriggersCoalesce | services/trace-gateway/internal/delivery/worker.go:103-110 | however many uploads trigger while the worker sleeps, they leave one wakeup: taking it empties the slot, and nothing can wake the worker a second time |
| WorkerProtocol.DueRetryKeepsTrigger | services/trace-gateway/internal/delivery/worker.go:169-192 | a retry time that is already due ends the wait at once and leaves the trigger in its slot; any other wait blocks, and a full slot ends it |
| WorkerProtocol.TriggerHoldsUntilLook | services/trace-gateway/internal/delivery/worker.go:105-192 | a trigger once in the slot is good until the worker next looks at the queue, through every interleaving of other steps |
| WorkerProtocol.MarkedBatchIsTheHead | services/trace-gateway/internal/delivery/worker.go:144-163 | when an outcome is recorded, the batch that was sent is still the head, unchanged, and the transaction commits |
| WorkerProtocol.CompletionsAscend | services/trace-gateway/internal/delivery/worker.go:144-163 | between crashes, restarts and offline replays included, delivered or quarantined batches have strictly ascending sequences |
| WorkerProtocol.DuplicateUploadWakesWorker | services/trace-gateway/internal/server/server.go:219-249 | a duplicate upload of a queued batch wakes a sleeping worker without writing anything, and the worker then looks at the head |
| WorkerProtocol.FailedFsyncWakesNobody | services/trace-gateway/internal/inbox/store.go:591-609 | in any world allowed by the invariant, an upload whose fsync fails stays queued behind a worker that sleeps on |
| WorkerProtocol.FailedFsyncStrandsBatch | services/trace-gateway/internal/inbox/store.go:591-609 | a run from an empty inbox that gets there: the exception is reachable |
| WorkerProgress.WorkerEmptiesQueue | services/trace-gateway/internal/delivery/worker.go:115-163 | from every reached world, with no further acceptances, the clock keeping up and finitely many retryable answers, a computed number of worker steps empties the queue, however they interleave with handlers and collections |
| WorkerProgress.WorkerStepProgresses | services/trace-gateway/internal/delivery/worker.go:115-163 | while the queue is not empty every step of the worker lowers the bound on the steps left |
| WorkerProgress.SomethingCanMove | services/trace-gateway/internal/delivery/worker.go:115-192 | no deadlock: a worker that has not stopped can take a step without new work, or the handler or collector it waits for can, unless it sleeps on nothing but uploads whose fsync failed |
| WorkerProgress.UsefulRunsDrain | services/trace-gateway/internal/delivery/worker.go:115-192 | taking steps that finish work at hand, in any order, ends within a computed number of steps with an empty queue; when no such step is left, the worker was stopped by a failed fsync or sleeps on such uploads |
| TokenUsage.SubtractTokenDetails | services/trace-gateway/internal/otlp/canonicalize.go:389-397 | the early-exit loop computes max(0, total - sum of details), without overflow |
| TokenUsage.SplitParts | services/trace-gateway/internal/otlp/canonicalize.go:318-342 | which parts are emitted and what each is, for every combination of reported counts |
| TokenUsage.TotalOf | services/trace-gateway/internal/otlp/canonicalize.go:345-350 | the total is the int64 sum of the parts for every map order |
| TokenUsage.RelayUsageDetails | services/trace-gateway/internal/otlp/canonicalize.go:274-352 | the breakdown that ReportIsSplit describes by field name; nothing exactly if nothing was reported; the total is the reported one if there is one, else the sum |
| TokenUsage.PartsAddUp | services/trace-gateway/internal/otlp/canonicalize.go:318-350 | when cache parts fit in the prompt and reasoning in the completion, the parts are non-negative and sum exactly to prompt plus completion |
| TokenUsage.PartsAddUpIff | services/trace-gateway/internal/otlp/canonicalize.go:318-350 | the parts sum to prompt plus completion if and only if the cache parts fit in an input that includes them, or are absent beside one that does not, and the reasoning fits in the completion |
| UsageReports.FirstIsCount | services/trace-gateway/internal/otlp/canonicalize.go:360-387 | of several paths the first that holds a non-negative whole number decides, and exactly one count results |
| UsageReports.ReportIsSplit | services/trace-gateway/internal/otlp/canonicalize.go:286-352 | by field name, for every dialect and precedence: input less cached and cache-creation tokens where the dialect includes them, output less reasoning tokens, never below zero, details and total as reported, a missing total summed up; nothing exactly if nothing was reported |
| UsageReports.PromptAndCompletion | services/trace-gateway/internal/otlp/canonicalize.go:286-329 | a report with prompt_tokens p and completion_tokens c: input is max(0, p - cached - created) and output max(0, c - reasoning) |
| UsageReports.InputBesideCache | services/trace-gateway/internal/otlp/canonicalize.go:310-322 | a report with input_tokens and cache counts beside it: the input is taken as it is |
| UsageReports.ReportIsExported | services/trace-gateway/internal/otlp/canonicalize.go:274-357 | end to end: these parts, under their names, are the fields of the one exported usage attribute of a generation |
| UsageReports.PlainReportIsKept | services/trace-gateway/internal/otlp/canonicalize.go:286-349 | concrete report: prompt_tokens 7 and completion_tokens 2 give input 7, output 2, total 9 |
| Redaction.CleanAttributes | services/trace-gateway/internal/redact/redact.go:31-51 | the loop with its breaks and skips computes the recursive specification; it terminates by the depth budget |
| Redaction.CleanString | services/trace-gateway/internal/redact/redact.go:81-103 | redacting a string, embedded JSON included, computes the specification and terminates |
| Redaction.CleanJsonOf | services/trace-gateway/internal/redact/redact.go:142-180 | redacting decoded JSON, strings in it included, computes the specification and terminates |
| Redaction.CleanValueOf | services/trace-gateway/internal/redact/redact.go:53-79 | redacting a value computes the specification and terminates |
| Redaction.SanitizedListIsClean | services/trace-gateway/internal/redact/redact.go:27-51 | every redacted list has at most 256 entries, no audio key, replacement text under every credential key, and clean values throughout; strictly so, with no text left unexamined, if every text reached could be examined |
| Redaction.SanitizedValueIsClean | services/trace-gateway/internal/redact/redact.go:53-79 | every redacted value is clean at its depth; raw bytes never remain |
| Redaction.SanitizedStringIsClean | services/trace-gateway/internal/redact/redact.go:81-103 | every redacted string is the replacement, a media descriptor, rendered clean JSON, text in which nothing was recognised, or text that was not examined for its depth or size; the last only if the input holds such text |
| Redaction.SanitizedJsonIsClean | services/trace-gateway/internal/redact/redact.go:142-180 | the same for JSON, for every order in which its objects are visited: unexamined strings occur only if the input reaches one too deep or too large |
| RedactionLimits.EmbeddedJsonIsRedactedIff | services/trace-gateway/internal/redact/redact.go:90-101 | JSON inside a string that is not caught as a whole is redacted if depth is at most 12 and the text at most 1 MiB, and passes unchanged otherwise |
| RedactionLimits.NestedCredentialIsKept | services/trace-gateway/internal/redact/redact.go:81-180 | concrete input: a password in JSON is redacted as an attribute value and kept inside a string ten arrays deep |
| RedactionLimits.OversizedCredentialIsKept | services/trace-gateway/internal/redact/redact.go:90-101 | concrete input: a password in JSON text above 1 MiB is kept as an attribute value |
| RedactionLimits.TextInArrays | services/trace-gateway/internal/redact/redact.go:142-180 | a string inside any number of arrays within the budget is redacted as a string of its own depth, which is where it may stop being examined |
| Redaction.RedactedNestsWithinBudget | services/trace-gateway/internal/redact/redact.go:31-79 | whatever comes in, what goes out nests at most 12 deep by an independent measure: an array costs 1, a key-value list with entries 2, a JSON container 1 |
| RedactionTerms.CredentialIffNamed | services/trace-gateway/internal/redact/redact.go:182-192 | a key is a credential if and only if a part of it spells one of the sixteen terms, in any case and with anything but letters and digits in between; the terms are named |
| RedactionTerms.AudioIffNamed | services/trace-gateway/internal/redact/redact.go:182-192 | the same for the five audio terms |
| RedactionTerms.EachAttribute | services/trace-gateway/internal/redact/redact.go:36-49 | by that spelling: each attribute the loop reaches is dropped if it names audio, keeps its key and becomes [REDACTED] if it names a credential, and else keeps its key and has its value redacted, in order |
| RedactionTerms.ListStops | services/trace-gateway/internal/redact/redact.go:32-39 | the list ends at the 257th attribute or the first without a value, and is empty below level 12 |
| RedactionTerms.EachField | services/trace-gateway/internal/redact/redact.go:150-165 | the same for the fields of a JSON object, in whatever order they are visited |
| RedactionTerms.BearerIff | services/trace-gateway/internal/redact/redact.go:86-88 | a text is taken for a bearer token if and only if white space, the word bearer in any case, a space and something more make it up |
| RedactionTerms.PrivateKeyIff | services/trace-gateway/internal/redact/redact.go:82-85 | and for a private key if and only if both markers stand in it, in any case |
| RedactionTerms.SecretsAreReplaced | services/trace-gateway/internal/redact/redact.go:81-103 | such a text becomes [REDACTED] at any depth; one without secret, data URL or JSON passes unchanged |
| RedactionTerms.AuthorizationIsCaught | services/trace-gateway/internal/redact/redact.go:182-184 | concrete key: Authorization is caught although it is not in lower case |
| RedactionTerms.PlainListPasses | services/trace-gateway/internal/redact/redact.go:31-79 | ordinary data is not harmed: a list of plain texts, numbers, arrays and lists under plain keys within depth and width passes unchanged |
| RedactionTerms.PlainJsonPasses | services/trace-gateway/internal/redact/redact.go:142-180 | the same for JSON |
| RedactionLimits.KeysSurviveIff | services/trace-gateway/internal/redact/redact.go:31-51 | every key but those of audio survives, in order, if and only if nothing but audio lies behind the first attribute that is nil or has no value, or behind the 256th; what lies before always does |
| RedactionLimits.ValuelessAttributeCutsList | services/trace-gateway/internal/redact/redact.go:36-39 | concrete input: an attribute without a value takes the one behind it along |
| Canonical.NamesAreDistinct | services/trace-gateway/internal/otlp/canonicalize.go:24-48 | the 23 reserved keys are pairwise different strings |
| Canonical.CompactUnreserved | services/trace-gateway/internal/otlp/canonicalize.go:521-534 | compacting in place into the front of the slice being read gives exactly the order-preserving filter |
| Canonical.NoReservedKeyIsLeft | services/trace-gateway/internal/otlp/canonicalize.go:521-534 | no reserved key survives, however often it occurred |
| Canonical.ResourceIdentityIsTrusted | services/trace-gateway/internal/otlp/canonicalize.go:69-120 | on a resource each of the 14 identity keys occurs exactly once with the trusted value, and no other reserved key at all |
| Canonical.SpanIdentityIsTrusted | services/trace-gateway/internal/otlp/canonicalize.go:86-96 | on a span each of the 6 identity keys occurs exactly once with the trusted value; each of the 8 projected keys occurs exactly if the projection has a value for it, once, with that value; no other reserved key occurs |
| Canonical.DropReserved | services/trace-gateway/internal/otlp/canonicalize.go:521-534 | redaction followed by the in-place compaction gives the filtered redacted list |
| Canonical.ProjectRelay | services/trace-gateway/internal/otlp/canonicalize.go:190-247 | appending one attribute after the other, reading each value off the list as it has grown, gives the list followed by the projection of what it held at first |
| Canonical.CandidatesAscend | services/trace-gateway/internal/otlp/canonicalize.go:190-247 | in every kind of span the projection asks for each key at most once and never for an identity key |
| Canonical.AppendedIsNotReadBack | services/trace-gateway/internal/otlp/canonicalize.go:190-247 | what the projection appends while it goes never changes what it reads next |
| ExportedAttributes.ReservedByName | services/trace-gateway/internal/otlp/canonicalize.go:24-48 | the reserved keys, all 23 by name |
| ExportedAttributes.ResourceCarries | services/trace-gateway/internal/otlp/canonicalize.go:104-120 | by name: each of the fourteen identity attributes of a resource, and which field of the sender each holds |
| ExportedAttributes.SpanCarries | services/trace-gateway/internal/otlp/canonicalize.go:83-91 | the same for the six of a span |
| ExportedAttributes.AcceptedIffIdentified | services/trace-gateway/internal/otlp/canonicalize.go:56-60 | a request is accepted if and only if its schema version is 1 and no identity attribute that goes onto its resources would be empty |
| ExportedAttributes.TurnIsProjected | services/trace-gateway/internal/otlp/canonicalize.go:196-211 | by name, end to end: a turn exports the user's input and the assistant's output as those of observation and trace, each once or not at all |
| ExportedAttributes.GenerationIsProjected | services/trace-gateway/internal/otlp/canonicalize.go:212-236 | the same for a generation: input content before the input group, choices before the output group, model and cost |
| ExportedAttributes.ToolIsProjected | services/trace-gateway/internal/otlp/canonicalize.go:237-245 | the same for a tool call |
| ExportedAttributes.OthersAreNotProjected | services/trace-gateway/internal/otlp/canonicalize.go:190-247 | a span of any other kind exports nothing under the projected keys |
| ExportedAttributes.GroupIff | services/trace-gateway/internal/otlp/canonicalize.go:417-426 | the group below a name consists of exactly the attributes called name.suffix with a value, under their suffixes |
| ExportedAttributes.UnreservedIff | services/trace-gateway/internal/otlp/canonicalize.go:521-534 | of a redacted list exactly the attributes with a reserved key are dropped |
| ExportedAttributes.OrdinaryAttributesArrive | services/trace-gateway/internal/otlp/canonicalize.go:68-120 | ordinary unreserved attributes arrive unchanged and in order in front of the identity |
| ExportedAttributes.SpanIsKept | services/trace-gateway/internal/otlp/canonicalize.go:77-103 | a rewritten span keeps name, ids and end, and every event and link its own list, filtered |
| Accounting.FindLogical | services/trace-gateway/internal/otlp/canonicalize.go:125-134 | the first loop maps each logical call id to the last span claiming it |
| Accounting.FindLatest | services/trace-gateway/internal/otlp/canonicalize.go:136-155 | the second loop maps each call to its last attempt among those ending last |
| Accounting.ProjectLogicalAccounting | services/trace-gateway/internal/otlp/canonicalize.go:125-172 | the spans, updated in place, are the result of visiting each call with an attempt once, in some order |
| Accounting.GainIsWhatIsMissing | services/trace-gateway/internal/otlp/canonicalize.go:157-188 | an attempt keeps all it had and gains, behind it, its call's usage exactly if it has none and its call's cost exactly if it has none |
| Accounting.BelowIsFilter | services/trace-gateway/internal/otlp/canonicalize.go:174-188 | exactly the attributes at or below the prefix are taken over |
| Accounting.LatestIsUnique | services/trace-gateway/internal/otlp/canonicalize.go:136-155 | at most one attempt per logical call gains anything |
| Accounting.AnyOrderSettles | services/trace-gateway/internal/otlp/canonicalize.go:157-172 | if nothing can flow through two calls, every order ends with each latest attempt having gained from its own call's original attributes and every other span unchanged |
| Accounting.SettledIsUnique | services/trace-gateway/internal/otlp/canonicalize.go:157-172 | that description determines the result |
| ExportedAttributes.LastAttemptIsCharged | services/trace-gateway/internal/otlp/canonicalize.go:125-188 | by name, over whole span lists: of the llm spans below a hermes.logical_llm_call, the last of those ending last is extended by exactly the usage and the cost attributes of the last span that is that call, each only if it has none of its own |
| Accounting.OrderIsIrrelevantIff | services/trace-gateway/internal/otlp/canonicalize.go:157-172 | the result is the same for every map order if and only if no call's latest attempt is itself a logical call whose missing usage or cost would flow on to an attempt missing it too |
| Accounting.NoLlmLogicalNothingFlows | services/trace-gateway/internal/otlp/canonicalize.go:125-155 | that condition holds whenever no logical-call span is itself of scope type llm |
| Accounting.ChainedCallsDependOnOrder | services/trace-gateway/internal/otlp/canonicalize.go:157-172 | three concrete spans for which the condition fails, so the order shows |
| Export.RewriteSpans | services/trace-gateway/internal/otlp/canonicalize.go:78-97 | in place, every span of a scope is the rewriting of the span the accounting pass left |
| Export.Canonicalize | services/trace-gateway/internal/otlp/canonicalize.go:50-123 | refused exactly for a nil request or an incomplete identity; else every resource, scope, span, event and link is rewritten, nil entries kept |
| Export.RewrittenRequestIsTrusted | services/trace-gateway/internal/otlp/canonicalize.go:50-123 | whatever the client sent, every resource and span carries the trusted identity exactly once and no reserved key that is not the gateway's own, and scopes, events and links carry no reserved key |
| Export.RewritingIsDeterministic | services/trace-gateway/internal/otlp/canonicalize.go:78-97 | without llm-scoped logical calls the rewriting of a scope's spans has one outcome |
| Generations.GainSurvivesAsFarAsReached | services/trace-gateway/internal/otlp/canonicalize.go:78-86 | end to end: the exported span of a call's latest attempt begins with its own attributes, filtered, followed by what it gained, redacted, as far as redaction reaches; all of the gain survives, audio aside, if and only if nothing but audio lies behind |
| Generations.NoRoomIff | services/trace-gateway/internal/otlp/canonicalize.go:78-86 | nothing of the gain is reached exactly if the attempt has 256 attributes of its own or one that is nil or has no value |
| Generations.CutAttemptExportsNoCost | services/trace-gateway/internal/otlp/canonicalize.go:78-86 | concrete input: an attempt with a valueless attribute gains a cost in the projection and exports none |
| Generations.ExportedUsageIsTheSplit | services/trace-gateway/internal/otlp/canonicalize.go:231-233 | end to end: a generation exports usage details exactly if its reported usage names a count, and then they are the fields of its breakdown, once (by field name: ReportIsExported) |

## Left out

- HTTP parsing, header validation, response writing, authentication and logging: field checks and I/O with no state.
- Process supervision and configuration in cmd/gateway/main.go: settled by reading one branch each.
- Upstream exactly-once: the code promises at-least-once only, and a batch may be sent again after a crash.
- Page layout of bbolt, file locking, stat calls: replaced by the conventions above.
- Wrap-around of the 64-bit sequence counter: the counter is unbounded in the inbox model; the byte-order lemma is stated below 2^64.
- The outcome field of a receipt, which is always "accepted", is omitted.
- Scripts, Compose, Nginx and ClickHouse files: deployment tooling.
- Drain.Run: driven by a finite list of rounds; blocking forever and the choice between timer, trigger and cancellation are the environment's.
- WorkerProgress.UsefulRunsDrain: bounds steps, not time, and says nothing about which enabled step a scheduler picks.
- BoltStore.Open: what the file system answers is given; the page size and allocation size it reports enter the model in Admission only.
- WorkerProtocol.StepKeepsOk: a crash may leave any consistent image, which InboxRuns.RunKeepsOk justifies; cancellation of the worker's context is covered by a restart.
- Backoff.FullJitter: the floating-point jitter is any integer from 0 to the delay, which it can differ from above 2^53 ns.
- Backoff.DelaySecondsAreHonoured: a date in Retry-After enters as the already parsed time.
- Export.Canonicalize: the nested slices of the request are values that are rebuilt; only the spans of a scope and each filtered attribute slice are updated in place, and sharing between slices is not captured.
- TokenUsage.RelayUsageDetails: takes the decoded usage report and returns the breakdown as a map; decoding text and writing its named fields as text are left to `Renderer`.
- Generations.ExportedUsageIsTheSplit: rendering of payload values other than text, of groups of attributes, of model names and of costs stays arbitrary.
- InboxRuns.PayloadsAreConserved: uploads committed with a failed fsync are counted apart from those answered "accepted".
- Redaction.SanitizedStringIsClean: nothing is claimed about byte-exact idempotence of redaction.
