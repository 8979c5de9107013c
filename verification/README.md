# watukuy, verified core

watukuy polls an API and turns what it sees into a stream of change events. This project models the
parts of it whose correctness does not show in any one function, and proves what they promise over
all inputs, all runs and all interleavings. `dafny verify dfyconfig.toml` checks everything.

- **Polling.** `Store` has the record of one `(poller, partition)` and every store operation as a
  function on values; `MemoryStore` is the mutable store, proved equal to it. `Polling` is the
  protocol: any number of sessions that acquire a fenced lease, fetch, read rows, diff and commit,
  against an API that changes under them. A session may stop between any two steps or go on after
  losing its lease; a store call may be applied without an answer. `Leases`, `PollingSafety`,
  `StreamFold`, `NoSkip` and `LagLimits` have its invariants and theorems, `Diff`, `Pages`, `Timestamp` and
  `FakeApi` the pieces, and `Runner` and `LiveCycle` the page processing, the full scan and the live cycle as
  loops over the store.
- **Delivery.** `Delivery` is the second protocol: sessions commit events and drain the outbox with
  interleaved workers while administrators retry and discard. `Conservation`, `Ordering` and `AckOrder`
  have the invariants and theorems, `OrderingLimits` a run for each assumption that shows why it is needed,
  and `Pool` and `Dispatcher` the drain itself with its workers, scheduled in any order. `DrainModel` and
  `DrainOrder` show that a drain is a run of the protocol, so that its theorems hold of every drain.
  `Consumers` is the backpressured iterator.
- **Rate budgets.** `Bucket` is the token bucket, `Fairness` the choice of the next waiter,
  `BudgetManager` the re-entrant grant loop with its timers, and `RateLimit` the two together.
- **Redis.** `Redis` is the split layout of a record and every script on it, proved to simulate the
  operation of the memory store.
- **Smaller pieces.** `Canonical`, `CanonicalForm` and `JsonText` (canonical JSON text, RFC 8785), `EventId`,
  `Scheduler`, `Words` (order of strings).

The two protocols are transition systems: `Apply` is a total function of a state and a step, a step
that cannot happen changes nothing, and the theorems are about `Run` over every sequence of steps
from the initial state. The other stateful parts are classes; every sequence of calls of their
methods is one interleaving, and what each call keeps is in `Valid`.

Clocks, randomness, API replies and the answers of handlers are arguments or arbitrary choices.
Poller callbacks are function-valued fields. SHA-256 is an arbitrary function; where equal hashes
must mean equal inputs, that is an assumption of the lemma. Times, tokens, sequences and epochs are
integers; shares in the weighted order are reals.

## Findings

- The delivery order of a key does not survive an administrative retry between the two reads of a
  drain, `loadPending` and then `heldKeys` (src/core/dispatcher.ts:91-93), of an event that a loaded row of
  its key follows: `OrderingLimits.RetryInGapBreaksOrder` is such a run, and `Ordering` proves the order
  for all runs without it.
- Nor does it survive a commit of an id that is still pending, since rows are stored by id
  (src/stores/memory/memory-store.ts:206-207): `OrderingLimits.RecommitBreaksOrder`. What remains true then
  is stated per id, `Conservation.AtLeastOnce`.
- A park or record call that fails for another reason than the lease makes the drain throw at once while
  its other workers go on (src/core/dispatcher.ts:209-211). The session may then commit and drain again
  under the same lease (src/core/runner.ts:218-245). First deliveries and at-least-once survive that; the
  order of acks does not: `OrderingLimits.OutlivingWorkerAcksBack` ends with acks 1, 2, 1, and
  `AckOrder.AcksFollowKeyOrder` proves the order when no worker outlives its drain. Worse, such a late ack
  removes a newer row of its id unseen: `OrderingLimits.OutlivingWorkerDropsRecommit`.
- When the reply to an applied ack is lost, the event can be parked, retried and acked again
  (`OrderingLimits.LostReplyAcksTwice`). Acks then repeat; that they do not go back is part of
  `AckOrder.AcksFollowKeyOrder`.
- docs/cursors.md advises a lag above the longest transaction plus clock skew. The cutoff is computed
  from a clock read after the fetch returned (src/core/runner.ts:456-461), so the lag must also cover
  the fetch latency: `NoSkip.NoRowIsSkipped` and `LagLimits.ShortLagSkips` meet at exactly that bound.
- No-skip needs no particular order of ids and not even a tie-break: the watermark only ever takes a
  tie-break that was seen.
- Under round robin a requester may be granted twice in the lane of a waiting one if that one was
  itself granted in another lane in between (src/budget/manager.ts:271-282):
  `Fairness.GrantElsewhereAllowsSecondBypass` is such a run, and `Fairness.RoundRobinBypass` shows that
  nothing else allows it.
- A forced backfill emits an item whose version is the stored one with the listed data, but leaves its row
  as it was (src/core/runner.ts:846-871). If the fingerprint differs, the snapshot is no longer the fold of
  the stream: `StreamFold.ForcedBackfillBreaksFold` for every poller with two such items, and
  `StreamFold.SnapshotIsFoldOfStream` shows that exactly this breaks it.
- The load window of a drain widens past held and blocked keys so that rows behind them do not starve, says
  src/core/dispatcher.ts:86-87. It does not after the pass in which keys turn out to wait for their retry: such
  a pass makes no progress and ends the drain (src/core/dispatcher.ts:212). `Dispatcher.StopsBeforeDueRow` is such
  a pass, and `Dispatcher.Drain.Run` says what the drain does reach: every key of one window of at least a batch.
- `timeUntilDue` reports no wait for a key that was never scheduled even while a throttle runs, although
  `isDue` says that it is not due (src/scheduler/scheduler.ts:351-378): `Scheduler.UnscheduledThrottled`.
  `Scheduler.NoWaitIfDue` shows that the two agree everywhere else.
- In a full scan an item that is listed but invalid counts as not listed, and its identity is deleted
  (src/core/runner.ts:819-824); `Runner.FullScan` says "valid listed identities" for that reason.

## Model

| member | source | states |
|---|---|---|
| NoSkip.NoRowIsSkipped | src/cursor/timestamp.ts:103-160 | No skipped rows: over every interleaving of API writes and deletes, page fetches, commits, full scans with their deletes, crashes, steals, zombies and rewinds, every valid row in scope at or below the persisted keyset cursor is stored at its current version (and fingerprint, if it has no version), with or without overlap, for any API id order, when lateness plus latency is below the lag |
| NoSkip.NoChangeIsSkipped | src/cursor/timestamp.ts:103-160 | If equal versions of an identity mean equal fingerprints, the stored fingerprint is the current one |
| LagLimits.ShortLagSkips | src/core/runner.ts:456-461 | The bound is exact: for every lag, lateness and latency with lag at most their sum, a run of the same protocol leaves a valid row at or below the persisted cursor unstored |
| LagLimits.OtherwiseFair | docs/cursors.md:65-67 | The configurations of that run meet everything else the no-skip theorem asks for |
| FakeApi.ListSince | src/testing/fake-api.ts:543-572 | A keyset listing returns at most `size` rows, leaves no gap after the cursor, and `hasMore` is true exactly when a selected row is left out |
| StreamFold.SnapshotIsFoldOfStream | src/core/runner.ts:820-875 | Exactly when: over every run of live, backfill and full-scan commits at a fixed schema version, folding all committed events gives the stored identities with the stored fingerprints in every state, if and only if every accepted forced page had the stored fingerprint for each item of a stored version |
| StreamFold.UnforcedRunsFold | src/core/runner.ts:820-845 | Without a forced page it is the fold after every run, whatever the versions |
| StreamFold.FaithfulRunsFold | src/core/runner.ts:820-875 | If equal versions of an identity mean equal fingerprints it is the fold after every run, forced or not |
| StreamFold.ForcedBackfillBreaksFold | src/core/runner.ts:846-871 | Otherwise it is not: for every poller and any two valid items of equal identity and version with different fingerprints, backfilling both, forced, leaves a snapshot that is not the fold |
| PollingSafety.SequencesIncrease | src/core/runner.ts:462-505 | Committed events strictly increase in sequence over every run |
| PollingSafety.ReadDiffCommitIsSerializable | src/core/runner.ts:820-823 | In every reachable state, if a page commit would be accepted, the rows stored now under its identities are those its diff was computed from |
| PollingSafety.EpochsAreOrdered | src/stores/memory/memory-store.ts:95-127 | For any number of sessions, no two acquisitions get the same epoch, accepted fenced writes come in nondecreasing epoch order, and at most one session passes the fence |
| PollingSafety.CompletedScanIsExact | src/core/runner.ts:556-590 | An accepted delete commit of a full scan leaves exactly the identities the scan saw, with one `deleted` event for each stored identity it did not see, whatever other sessions did |
| Conservation.AtLeastOnce | src/core/dispatcher.ts:84-213 | In every reachable state each committed event id is pending, parked, or some event of that id was completed by the consumer or discarded; no crash point, steal, retry, discard or worker that outlives its drain loses one |
| Ordering.DeliveriesFollowKeyOrder | src/core/dispatcher.ts:84-213 | With `holdKey`, whenever any worker starts a delivery, every smaller sequence of the same ordering key was delivered or discarded before, across workers, overlapping drains, retries, parking, crashes and zombies |
| AckOrder.AcksFollowKeyOrder | src/core/dispatcher.ts:130-134 | If no worker outlives its drain, accepted acks of one ordering key never go back in sequence, and strictly increase if no reply to an applied ack is lost |
| OrderingLimits.RetryInGapBreaksOrder | src/core/dispatcher.ts:91-93 | A run of real events: with an administrative retry between the two reads of a drain, the second event of a key is about to be delivered while the first is neither delivered nor discarded |
| OrderingLimits.RecommitBreaksOrder | src/stores/memory/memory-store.ts:206-207 | For every poller whose ids tell the two events apart: an item created, deleted and created again at the same version commits an id that is still pending; the first row is overwritten and the second event is about to be delivered while the first is neither delivered nor discarded |
| OrderingLimits.LostReplyAcksTwice | src/core/dispatcher.ts:130-145 | If the reply to an applied ack is lost, the event can be parked, retried and acked a second time |
| OrderingLimits.OutlivingWorkerAcksBack | src/core/dispatcher.ts:206-211 | A worker of another key fails at the store and the drain throws while a delivery is under way; the session drains again and acks the two events of the key; then the first worker acks: the accepted acks are 1, 2, 1, with no lost reply, no retry and fresh ids |
| OrderingLimits.OutlivingWorkerDropsRecommit | src/stores/memory/memory-store.ts:242-246 | The same late ack, after the id was committed again, removes the new row: that event is neither stored nor delivered nor discarded |
| Leases.Acquired | src/stores/memory/memory-store.ts:104-111 | A new acquisition gets an epoch never issued before and fences every other session out |
| Leases.Exclusive | src/stores/memory/memory-store.ts:95-99 | Two sessions that both pass the fence are the same session |
| Pages.PageRowsTell | src/core/runner.ts:826-871 | Every row of a page: a listed item under its own version for a change, created or updated as it was stored or not; a listed item of a known identity under the stored version for a forced one; the id is that of the six parts, fresh, pending and in lane and sequence |
| Pages.PageIdsTell | src/core/runner.ts:890-897 | With a collision-free hash, two rows of any two pages of any two pollers have the same id exactly when source, partition, schema version, subject, kind and version (or fingerprint) agree |
| Pages.DeleteIdsTell | src/core/runner.ts:568-581 | The same for two deletes, under the stored version or hash |
| Pages.PagesAndDeletesDiffer | src/core/runner.ts:568-581 | No row of a page has the id of a delete |
| Pages.ForcedTellsAll | src/core/runner.ts:846-871 | A forced page emits a row for every valid listed item |
| Pages.InvalidItemsFollowPolicy | src/core/runner.ts:791-817 | A page fails exactly when an item is invalid under `fail`; under `quarantine` every invalid item is parked, in order, without event and hold, and otherwise none is |
| Delivery.PagesCommitNewRows | src/core/runner.ts:826-871 | What a page commits meets what the delivery protocol asks of committed rows and of quarantined ones |
| Runner.ProcessPage | src/core/runner.ts:770-876 | Processing a page computes `PageSpec` of the stored rows: upserts, numbered change events, forced re-emissions and quarantined items, or nothing when an invalid item fails the cycle |
| Pages.PageIsFaithful | src/core/runner.ts:820-875 | A page commit stores each valid listed identity at its newest version and leaves the rest alone; at an unchanged schema version its events move the fingerprints as its upserts do, and for a forced page exactly when items of a stored version have the stored fingerprint |
| Pages.PageSequences | src/core/runner.ts:826-842 | The events of a page are numbered consecutively from the sequence the page started at |
| Pages.OneDeleteEach | src/core/runner.ts:563-585 | Deletes of stored identities are one `deleted` event each, in order, numbered consecutively |
| Runner.ScanPages | src/core/runner.ts:413-553 | A scan counts as completed only if every page up to the last one arrived and none was a 304, and every other end has its reason: cap, deadline, halt or 304, abort, error or invalid item, or a lost lease; the pages so far keep snapshot, stream and listing in step |
| Runner.SweepMissing | src/core/runner.ts:556-600 | After a completed listing exactly the seen identities stay, each missing one gets one `deleted` event, and the fold of the stream is still the snapshot; a rejected commit changes nothing |
| Runner.FullScan | src/core/runner.ts:413-602 | A completed scan leaves exactly the valid listed identities and emits one delete per stored identity not listed, in code-unit order; any other cycle deletes nothing; either way, at an unchanged schema version, the snapshot is the fold of the emitted events |
| LiveCycle.Run | src/core/runner.ts:413-553 | A live cycle goes on while the strategy says that there is more, and ends as done exactly after the first page that says there is none, otherwise only by page cap, deadline, halt, error or a lost lease; after any end snapshot, stream, sequence and stored cursor are those of the pages committed so far |
| LiveCycle.DoneIsLast | src/core/runner.ts:413-480 | A done cycle fetched every page, each but the last with more to come, and asked for nothing after it |
| LiveCycle.CursorRises | src/core/runner.ts:421-461 | Within a cycle the cursor never moves back |
| LiveCycle.KeptIsBelow | src/core/runner.ts:421-461 | The cursor of a cycle ends at or after every item that any page kept, and what a page dropped was newer than its clock less the lag |
| Diff.EveryVerdict | src/diff/diff.ts:120-180 | For every listed item, at any schema version: nothing if its version is stored at the current schema version; otherwise a change exactly if it is not stored, or its fingerprint differs and the schema version is the current one or `emit` is set; with its kind, previous payload, row and list |
| Diff.DiffInOrder | src/diff/diff.ts:126-177 | Every list of the diff is in listing order |
| Diff.SplitOne | src/diff/diff.ts:75-89 | An item is skipped exactly when its version and the current schema version are stored |
| Diff.LatestInPlace | src/diff/diff.ts:70-72 | A repeated identity takes the place of its first occurrence, a new one comes last |
| Diff.PrepareCandidates | src/diff/diff.ts:65-91 | The last occurrence of an identity wins at the place of the first; items whose version and schema version are stored are skipped |
| Diff.LastOccurrenceWins | src/diff/diff.ts:65-80 | An item with no later item of the same identity is the one kept for that identity |
| Diff.DiffCandidates | src/diff/diff.ts:120-180 | The loop computes created, updated, rebaselined and unchanged verdicts as the fold `DiffAll` |
| Diff.DiffIsSound | src/diff/diff.ts:120-180 | Applying the upserts leaves every listed identity at the version of its item, and at its fingerprint unless that version was stored already, leaves all others alone, and at an unchanged schema version moves fingerprints exactly as the emitted changes say |
| Diff.FastPathRefinesFullDiff | src/diff/diff.ts:65-91 | Skipping the hashes of items whose version is stored gives the same changes and the same stored version, hash and schema version as hashing every item, exactly when those items have the stored fingerprint; duplicates included |
| Diff.DetectDeletes | src/diff/diff.ts:186-192 | The result lists exactly the stored identities not seen, each once, sorted by code units |
| Timestamp.Advance | src/cursor/timestamp.ts:103-160 | The loop computes the kept items and the next watermark as `AdvanceSpec`, including the explicit page cursor and the unparseable cursor |
| Timestamp.AdvanceIsMax | src/cursor/timestamp.ts:130-160 | The new watermark is the maximum, in (instant, tie) order, of the old one and of the marks of the items kept; exactly the items with no stamp after the cutoff are kept; the page is the last one exactly if it does not say that there is more |
| Timestamp.KeptIsFilter | src/cursor/timestamp.ts:119-146 | The lag only drops items: the kept ones stay in order, with repetitions |
| Timestamp.PageCursorIsTrusted | src/cursor/timestamp.ts:108-113 | An explicit page cursor is taken as it is, without a tie; every item is kept |
| Timestamp.WatermarkIsVerbatim | src/cursor/timestamp.ts:149-159 | The text of the watermark is the stored one while the instant stays, else the stamp of a kept item |
| Timestamp.FailsExactly | src/cursor/timestamp.ts:149-152 | Advancing fails exactly on a stored watermark that does not parse and a kept item with a stamp |
| Timestamp.OverlapMovesBack | src/cursor/timestamp.ts:205-210 | The overlap moves the first request back by exactly that much and asks for every tie; without it the request starts where the last one ended |
| Timestamp.MaxStringIsMax | src/cursor/timestamp.ts:97-101 | The larger tie-break by code units; an absent one loses |
| EventId.RecoverMaterial | src/diff/event-id.ts:26-52 | An unescape-and-split parser recovers the six parts from the material, whatever separators and backslashes they contain |
| EventId.MaterialInjective | src/diff/event-id.ts:38-52 | Different parts never give the same material |
| EventId.MaterialLayout | src/diff/event-id.ts:38-52 | The six fields in their order between bare separators, after the prefix |
| EventId.EscapesInPlace | src/diff/event-id.ts:25-28 | Separators and backslashes get a backslash in front, everything else stays |
| EventId.IdsDetermineParts | src/diff/event-id.ts:63-65 | With a collision-free hash, equal event ids come from equal parts |
| Store.LeaseRunsOut | src/stores/memory/memory-store.ts:104-111 | After an acquisition another owner can acquire exactly from its expiry on, the owner itself at any time; the epoch rises by one |
| Store.RenewalCountsAnew | src/stores/memory/memory-store.ts:113-127 | A renewal counts anew from the call under the same epoch; a release frees the key at once and keeps the epoch counter |
| Store.CommitSets | src/stores/memory/memory-store.ts:199-224 | Deleted identities are gone, upserted ones have their last upsert, events and quarantined items are stored, everything else is kept |
| Store.AttemptsAdd | src/stores/memory/memory-store.ts:248-262 | After n failed attempts the count is n higher, with the newest error and retry time, and nothing else changed |
| Store.RetryStartsOver | src/stores/memory/memory-store.ts:285-306 | A retried event is pending under its id and sequence, unattempted and due, and no longer parked; anything else is not retried |
| Store.PatchSets | src/stores/memory/memory-store.ts:144-152 | A patch sets the fields it names and keeps the others; a key without state starts running, uncounted, without cursors |
| Store.LaterPatchWins | src/stores/memory/memory-store.ts:144-152 | Of two state writes the later one wins field by field, and what neither names stays |
| Store.PatchCommutes | src/stores/memory/memory-store.ts:154-159 | A state write, also an unfenced one, commutes with every outbox operation: it disturbs no drain and no drain disturbs it |
| Pages.ClearedSnapshotStartsOver | src/stores/memory/memory-store.ts:173-175 | After the snapshot was cleared, a page reports every valid listed identity as created, once, with its newest item |
| MemoryStore.MemoryStore.AcquireLease | src/stores/memory/memory-store.ts:104-111 | Refused while another owner holds an unexpired lease; otherwise a new epoch; the record is created even when refused |
| MemoryStore.MemoryStore.RenewLease | src/stores/memory/memory-store.ts:113-120 | Extends the lease exactly when owner and epoch match |
| MemoryStore.MemoryStore.ReleaseLease | src/stores/memory/memory-store.ts:122-127 | Clears the lease exactly when owner and epoch match |
| MemoryStore.MemoryStore.DeleteKey | src/stores/memory/memory-store.ts:169-171 | Removes the record, and with it the epoch counter |
| MemoryStore.MemoryStore.LoadVersions | src/stores/memory/memory-store.ts:177-186 | Exactly the stored rows of the asked identities |
| MemoryStore.MemoryStore.CommitPoll | src/stores/memory/memory-store.ts:199-224 | All or nothing: the three tables and the state patch of `Store.CommitPoll`, or the record as it was |
| MemoryStore.MemoryStore.LoadPending | src/stores/memory/memory-store.ts:226-234 | The pending rows in sequence order, cut after the limit |
| MemoryStore.MemoryStore.CountPending | src/stores/memory/memory-store.ts:236-240 | The number of pending rows |
| MemoryStore.MemoryStore.AckEvents | src/stores/memory/memory-store.ts:242-246 | Removes exactly the given ids when fenced |
| MemoryStore.MemoryStore.RecordAttempt | src/stores/memory/memory-store.ts:248-262 | One more attempt, the error and the retry time on a stored row; unknown ids change nothing |
| MemoryStore.MemoryStore.ParkEvent | src/stores/memory/memory-store.ts:264-269 | The parked row replaces the pending row of its event |
| MemoryStore.MemoryStore.RetryParked | src/stores/memory/memory-store.ts:285-306 | Moves every poison row with an event back as a fresh pending row, in list order, and counts the moves |
| MemoryStore.MemoryStore.DiscardParked | src/stores/memory/memory-store.ts:308-314 | Removes exactly the given parked rows and counts them |
| MemoryStore.MemoryStore.HeldKeys | src/stores/memory/memory-store.ts:316-321 | Exactly the keys held by parked rows |
| Pool.GroupByOrderingKey | src/core/dispatcher.ts:40-55 | One group per ordering key, with exactly the rows of that key in their order |
| Pool.Select | src/core/dispatcher.ts:93-96 | Exactly the groups whose key is neither held nor blocked |
| Dispatcher.Drain.Row | src/core/dispatcher.ts:107-121 | A row not yet due blocks its key and lowers the next retry time; an abort or halt returns; otherwise delivery starts; less work is left and the books stay right |
| Dispatcher.Drain.Ack | src/core/dispatcher.ts:130-134 | Exactly the delivered row is acked and counted, and the worker goes on; a lost lease ends the drain; the books and the one-worker-per-key invariant stay |
| Dispatcher.Drain.Park | src/core/dispatcher.ts:145-185 | Out of attempts exactly that event is parked as poison with one attempt more and counted; its key is held exactly with `holdKey`; then the drain halts, leaves the key, or the worker goes on; books and invariant stay |
| Pool.ParkedHolds | src/core/dispatcher.ts:150-166 | The parked row keeps the event, is no longer pending, and holds its ordering key exactly with `holdKey`; no other key becomes held |
| Dispatcher.Drain.Reschedule | src/core/dispatcher.ts:186-205 | With attempts left the retry of exactly that row is recorded, counted and reported if earlier, and the key is blocked; books and invariant stay |
| Dispatcher.Drain.RunPool | src/core/dispatcher.ts:103-211 | The pool ends under every interleaving of its workers, or throws when the lease is lost or a park or record call fails, with at most `concurrency` keys in flight and none twice, and counts its progress exactly; unless it was stopped or something was delivered or parked, every key of the pass is blocked in the end |
| Dispatcher.Drain.Turn | src/core/dispatcher.ts:88-101 | A turn widens a window below sixteen batches with neither store nor counters nor blocked keys changed, leaves strictly fewer pending rows, or stops; it stops by itself only when every key of the loaded rows is held or blocked |
| Dispatcher.Drain.Run | src/core/dispatcher.ts:62-216 | The drain terminates, with a result unless it threw; delivered plus parked is pending before minus remaining; every row there was is still stored, delivered or parked; other records are untouched; if nobody stops it, every key of a load window of at least one batch is held or blocked in the end; and the whole drain is a run of the delivery protocol |
| Dispatcher.StopsBeforeDueRow | src/core/dispatcher.ts:85-101 | That window may end before a due row: with a batch of one, a row to be retried later in front of it ends the drain with a due row of a free key neither loaded nor delivered |
| DrainModel.Simulates | src/core/dispatcher.ts:107-205 | What one worker does to its group and to the record is the step of the delivery protocol of that name |
| DrainOrder.DrainsAreOrderly | src/core/dispatcher.ts:62-216 | Adding a whole drain to an orderly run of the delivery protocol leaves it orderly |
| DrainOrder.DrainsFollowKeyOrder | src/core/dispatcher.ts:62-216 | So in every drain, whatever happened before, an event is delivered only after every smaller sequence of its key was delivered or discarded |
| Bucket.MemoryBudgetStore.RefillBucket | src/budget/memory-store.ts:71-87 | Refill, clamp or creation of one bucket, others untouched |
| Bucket.MemoryBudgetStore.TakeTokens | src/budget/memory-store.ts:40-60 | The bucket and the reply of `Take`, including costs of zero and above the burst |
| Bucket.MemoryBudgetStore.Peek | src/budget/memory-store.ts:62-64 | Peeking refills like a take of nothing |
| Bucket.WaitIsExact | src/budget/memory-store.ts:46-59 | After a refusal and with no call in between, the same take is granted exactly from the bucket time plus the reported wait on, for every clock reading and also above the burst |
| Bucket.WaitFromNow | src/budget/memory-store.ts:56-58 | With the clock not behind the bucket, the wait counts from the call |
| Bucket.RateNeverExceeded | src/budget/memory-store.ts:40-87 | In any window of any history, granted cost times the window length is at most one full bucket plus requests times elapsed time, even if the clock steps back |
| Bucket.RedisBucket.TakeScript | src/stores/redis/scripts.ts:262-313 | The script on the hash has the effect and the reply of the memory bucket |
| Bucket.StartsFull | src/budget/memory-store.ts:74-78 | A new bucket holds a full burst: its first take is granted exactly up to the burst |
| Bucket.NothingIsLost | src/budget/memory-store.ts:40-87 | A take is granted exactly if contents plus refill suffice, and what is left plus what was charged is exactly that, or a full bucket if it is less |
| Fairness.LanesInOrder | src/budget/manager.ts:272-273 | Live before reconcile before backfill before replay, whatever was granted before |
| Fairness.PickedIsLeast | src/budget/manager.ts:274-281 | Within a lane the lowest share under weighted fairness, then the requester served longest ago, then the waiter that came first |
| Fairness.StatsFor | src/budget/manager.ts:289-303 | A known requester keeps count and last grant; a new one starts unserved, at the lowest ratio of the others rounded down to whole grants: not above any of them, and less than one grant below the lowest |
| Fairness.Compare | src/budget/manager.ts:271-282 | Decides lane, then fairness, then arrival; the loser is behind the winner in the statistics afterwards |
| Fairness.Pick | src/budget/manager.ts:262-269 | Every other waiter is behind the picked one, in statistics that come from looking up waiters of the queue one after the other |
| Fairness.RoundRobinBypass | src/budget/manager.ts:262-282 | Once granted, a requester is not picked again in the lane of another waiting requester until that one was granted too |
| Fairness.GrantElsewhereAllowsSecondBypass | src/budget/manager.ts:262-282 | A run in which one requester is granted twice in the lane where the same waiter of another waits all along, because that one was granted in another lane in between |
| Fairness.WeightedBypass | src/budget/manager.ts:271-282 | Granting one requester while another waited in its lane at the pick leaves its share at most one grant ahead |
| BudgetManager.Budget.Acquire | src/budget/manager.ts:148-189 | Bad arguments are refused, cost zero is immediate, an aborted signal rejects, otherwise one waiter with these arguments is queued last and the loop entered; the invariant stays, nobody is settled |
| BudgetManager.Budget.Resume | src/budget/manager.ts:226-254 | A granted take resolves its waiter with exactly its cost, a failed one rejects it, a refused one settles only waiters out of time, leaves everyone else who waits with a deadline a timer for it, and sets the wake-up to the reported wait; if the waiter left meanwhile the tokens are forfeited; whatever hooks and timers do synchronously, the invariant and all settlements stay |
| BudgetManager.Budget.Pump | src/budget/manager.ts:216-220 | A re-entrant call only asks the running loop to look again; otherwise the loop runs until it waits for the store or is idle |
| BudgetManager.Budget.Settle | src/budget/manager.ts:322-334 | The waiter leaves the queue with one settlement and its deadline timer is cleared |
| BudgetManager.Budget.ArmDeadline | src/budget/manager.ts:358-369 | Afterwards the waiter timed out, at once if its deadline has passed, or the clock holds a timer for its deadline |
| BudgetManager.Budget.ArmDeadlines | src/budget/manager.ts:358-369 | Everyone who still waits with a deadline has a timer, and nobody newly armed is past it |
| BudgetManager.Delay | src/budget/manager.ts:251-252 | The wait rounded up, at least one millisecond, a second if it is not a finite number |
| BudgetManager.Budget.ScheduleWake | src/budget/manager.ts:375-386 | One wake-up replaces an older one; a clock that fires it at once makes the running loop look again |
| BudgetManager.Budget.Abort | src/budget/manager.ts:336-342 | An abort settles exactly this waiter, unless it was settled |
| BudgetManager.Budget.Fire | src/budget/manager.ts:344-384 | A fired timer is gone; an expiry settles exactly its waiter, a wake-up restarts the loop and settles nobody |
| BudgetManager.Budget.IdleHasOneWakeUp | src/budget/manager.ts:375-392 | Whenever the loop is idle and somebody waits, the clock holds exactly one live wake-up |
| BudgetManager.Budget.WaitsOrSettled | src/budget/manager.ts:322-350 | Every waiter ever queued either waits or has exactly one settlement |
| BudgetManager.Budget.RoundRobin | src/budget/manager.ts:262-319 | The rounds of any interleaving of the manager obey the round-robin bound |
| BudgetManager.Budget.WeightedShare | src/budget/manager.ts:262-319 | The rounds of any interleaving of the manager obey the weighted bound |
| RateLimit.Limiter.Serve | src/budget/manager.ts:230-233 | The store works on the take of the loop at its own time; the ledger of takes stays right |
| RateLimit.Limiter.Answer | src/budget/manager.ts:241-249 | When the loop sees a grant, the waiter of that take gets its cost, or nothing if it left meanwhile |
| RateLimit.KeptWithinGranted | src/budget/manager.ts:241-249 | Over any window of takes, resolved waiters got at most what the bucket granted |
| RateLimit.Limiter.ResolvedWithinRate | src/budget/memory-store.ts:40-87 | Manager and bucket together, over every interleaving and with other users of the bucket: in any window of takes the tokens of resolved acquires are within one full bucket plus the refill, even if the clock steps back |
| Redis.RedisRecord.AcquireLease | src/stores/redis/scripts.ts:79-92 | Keeps the layout and does what the memory store does |
| Redis.RedisRecord.RenewLease | src/stores/redis/scripts.ts:95-99 | Keeps the layout and does what the memory store does |
| Redis.RedisRecord.ReleaseLease | src/stores/redis/scripts.ts:102-107 | Keeps the layout and does what the memory store does |
| Redis.RedisRecord.SetState | src/stores/redis/scripts.ts:43-63 | The zero state and then the fields one by one are the memory store patch |
| Redis.RedisRecord.SaveState | src/stores/redis/scripts.ts:110-115 | Fenced patch, as in the memory store |
| Redis.RedisRecord.CommitPoll | src/stores/redis/scripts.ts:133-173 | State, items, split outbox, parked rows and holds together simulate the memory commit |
| Redis.RedisRecord.AckEvents | src/stores/redis/scripts.ts:176-182 | Dropping a row from the sorted set and three hashes simulates the memory ack |
| Redis.RedisRecord.RecordAttempt | src/stores/redis/scripts.ts:185-192 | Counter and error hashes simulate the in-place update |
| Redis.RedisRecord.ParkEvent | src/stores/redis/scripts.ts:198-211 | Parked row, hold and dropped outbox row simulate the memory park |
| Redis.RedisRecord.RetryScript | src/stores/redis/scripts.ts:225-243 | Every row still parked moves back as pending |
| Redis.RedisRecord.DiscardParked | src/stores/redis/scripts.ts:246-253 | Removes parked rows with their holds, and counts them |
| Redis.TwoPhasesAreOne | src/stores/redis/redis-store.ts:457-488 | Reading the rows and running the script, with nothing in between, is the memory retry, with the same count |
| Redis.RedisRecord.RetryParked | src/stores/redis/redis-store.ts:457-488 | Keeps the layout and simulates the memory retry |
| Redis.RedisRecord.LoadPending | src/stores/redis/redis-store.ts:361-387 | A range of the sorted set overlaid with the hashes is the pending rows in sequence order, cut after the limit |
| Redis.RepliesAgree | src/stores/redis/redis-store.ts:361-387 | When pending sequences are distinct there is only one legal reply, so both stores agree |
| Redis.SplitRead | src/stores/redis/redis-store.ts:361-387 | The four reads at different times, with any acks, parks and attempts in between: the reply drops exactly the rows that are gone when the rows are read, and keeps order, events and sequences; only counters and errors may be of other moments |
| Redis.RedisRecord.CountPending | src/stores/redis/redis-store.ts:389-391 | The size of the sorted set is the number of pending rows |
| Redis.RedisRecord.HeldKeys | src/stores/redis/redis-store.ts:497-499 | The values of the hold hash are the keys held by parked rows |
| JsonText.CharsInverse | src/diff/canonicalize.ts:48-49 | Reading a string literal gives back the string, for all code units including control characters and lone surrogates |
| Canonical.ValueReads | src/diff/canonicalize.ts:38-115 | Whatever follows it, the text of a value reads back as its JSON value |
| Canonical.TextIsFaithful | src/diff/canonicalize.ts:38-115 | Two values get the same text if and only if they are equal JSON values up to member order, omitted members and negative zero |
| Canonical.Serialize | src/diff/canonicalize.ts:38-82 | The recursion gives the text, and nothing exactly for values with a non-finite number, BigInt, Map or Set in a place that is looked at |
| Canonical.SerializeArray | src/diff/canonicalize.ts:93-100 | The loop gives the array text, or nothing |
| Canonical.SerializeObject | src/diff/canonicalize.ts:102-115 | Sorting the keys and skipping omitted members while appending gives the object text, or nothing |
| CanonicalForm.UnitText | src/diff/canonicalize.ts:48-49 | The escapes that RFC 8785 forces: short ones where they exist, the long one in lower case for other control characters and lone surrogates, nothing else escaped |
| CanonicalForm.EscapesInPlace | src/diff/canonicalize.ts:48-49 | Strings are escaped unit by unit, except that surrogate pairs are kept whole |
| CanonicalForm.Constants | src/diff/canonicalize.ts:39-47 | The literal texts |
| CanonicalForm.ArrayText | src/diff/canonicalize.ts:93-100 | Elements in order, in brackets, separated by commas |
| CanonicalForm.ObjectText | src/diff/canonicalize.ts:102-115 | Member lines in braces, key, colon and value, the largest key last |
| Words.FirstDifferenceDecides | src/diff/canonicalize.ts:102-103 | The order of keys: the first differing code unit decides, a prefix comes first |
| Scheduler.ThrottleWaits | src/scheduler/scheduler.ts:281-300 | After a throttle the key is due exactly when the time the API asked for, or one interval if it did not say, has passed; circuit, count and interval stay |
| Scheduler.SuccessSets | src/scheduler/scheduler.ts:209-262 | Growth by half and halving to the nearest millisecond within the bounds, the fixed and the truncated case, and what a success forgets |
| Scheduler.FailureSets | src/scheduler/scheduler.ts:302-341 | A failure is counted once, the opening moment is kept until the circuit closes, and reported limits replace stored ones |
| Scheduler.OpenedAtIsKnown | src/scheduler/scheduler.ts:203-341 | Over every run the opening moment is known exactly while the circuit is not closed |
| Scheduler.HaltWaits | src/core/runner.ts:289-300 | A halt opens the circuit until the next probe, or a throttle that lasts longer |
| Scheduler.NoWaitIfDue | src/scheduler/scheduler.ts:351-378 | The reported wait is zero exactly when the key is due, except for a key that was never scheduled while a throttle runs |
| Scheduler.Initial | src/scheduler/scheduler.ts:104-117 | A key seen for the first time is due, with a closed circuit and an interval within its bounds |
| Scheduler.ClosedIffFewFailures | src/scheduler/scheduler.ts:273-341 | Over every run, halts included, the circuit is closed exactly while consecutive failures are below the threshold |
| Scheduler.ReportsAlternate | src/scheduler/scheduler.ts:203-341 | Without a halt, opened and closed reports alternate, starting with opened, and their number tells the state of the circuit |
| Scheduler.IntervalStaysInBounds | src/scheduler/scheduler.ts:209-231 | After any run with a success the interval is within its bounds, whatever was stored before |
| Scheduler.IdleIsRun | src/scheduler/scheduler.ts:209-231 | Runs of only idle or only busy cycles follow the growth and halving sequences |
| Scheduler.IdleReachesMax | src/scheduler/scheduler.ts:222-224 | The interval is at its maximum after n idle cycles once 3^n times the start reaches 2^n times the maximum |
| Scheduler.BusyReachesMin | src/scheduler/scheduler.ts:225-228 | The interval is at its minimum after n busy cycles once the start is at most 2^n times the minimum |
| Scheduler.PacingLasts | src/scheduler/scheduler.ts:168-183 | Spaced by the paced wait the remaining requests last until the reset, and the wait is the interval or the shortest that does so |
| Scheduler.SuccessSpaces | src/scheduler/scheduler.ts:233-245 | After a success the key is due exactly when the jittered interval has passed (at once after a truncated cycle) and the remaining requests, so spaced, last until the reset |
| Scheduler.FailureWaits | src/scheduler/scheduler.ts:302-341 | After a failure the key is due exactly when the probe interval or the backoff has passed and a running throttle too; the circuit is open exactly from the threshold on |
| Scheduler.ThrottleHolds | src/scheduler/scheduler.ts:281-300 | Until the time the API asked for, nothing but a success, a forced run or a newer throttle makes the key due |
| Scheduler.DueAfterWait | src/scheduler/scheduler.ts:351-378 | The key is due at a later time exactly when the reported wait has passed |
| Consumers.SubscribeConsumer.Deliver | src/core/consumers.ts:65-71 | A waiting loop gets the event at once, otherwise it is queued last; after a close it is turned away |
| Consumers.SubscribeConsumer.Next | src/core/consumers.ts:95-102 | Asking for the next event acknowledges the one in flight and hands out the oldest queued one |
| Consumers.SubscribeConsumer.Return | src/core/consumers.ts:103-107 | Leaving the loop acknowledges the event in flight and turns the rest away |
| Consumers.SubscribeConsumer.Throw | src/core/consumers.ts:108-112 | A throwing loop does not acknowledge its event |
| Consumers.SubscribeConsumer.Close | src/core/consumers.ts:115-125 | Nothing unanswered is acknowledged, and every delivery gets its one answer |

## Left out

- HTTP client, abort-signal plumbing, header parsing, redaction, CLI, NestJS, OpenTelemetry, sinks and the SQLite and Postgres stores: wiring over platform APIs, or engines whose semantics the source does not show.
- Hooks, logging, `inspect()`, validators, the event log and `replay()`: no effect on the protocols, except that replay commits ids that are still outstanding, which the ordering theorem excludes.
- The daemon timer loop and `tick()`: "some instance runs this key now" is any step of a session.
- Token, page, snapshotDiff and custom cursor strategies: only their `done` flag appears, as an input of the full scan. `LiveCycle` uses the timestamp strategy.
- Async-iterable fetches: one page per fetch call, so an iterable left early on abort is not modelled.
- `clearItems` and `deleteKey` in runs: they are store methods here but not steps; the first cuts the snapshot off the stream, the second drops the epoch counter.
- Unfenced cursor writes other than rewinds: a cursor moved forward by hand skips rows by design.
- Pausing, lease keeping and the per-lane choice of `runKey`: every order of cycles and drains is allowed instead, which covers them.
- NoSkip.NoRowIsSkipped: assumes that the listing of a full scan shows every valid row that was visible from its beginning to its end; does not cover pages with an explicit page cursor, nor rows older than the configured start.
- Ordering.DeliveriesFollowKeyOrder: assumes that no committed id is pending, parked or in the hands of a worker that can still write, and no administrative retry, between the two reads of a drain, of an event that a loaded row of its key follows; there is a run against each.
- AckOrder.AcksFollowKeyOrder: assumes the same, and that no worker outlives a drain that threw. That holds with a concurrency of 1, and whenever no park or record call fails for another reason than the lease.
- Conservation.AtLeastOnce: is stated per event id, because an id that repeats while outstanding overwrites its row.
- Dispatcher.Drain.Run: assumes that nobody else writes the outbox meanwhile and that an ack that fails for another reason than the lease had no effect; a drain that throws, because the lease is lost or a read, park or record call failed, promises nothing, and the workers that outlive it are not modelled here. The delivery protocol has none of these assumptions.
- Runner.FullScan: does not model the outbox between pages; the drain shows only as a possible halt. The same goes for LiveCycle.Run.
- MemoryStore.MemoryStore.LoadPending: leaves the order of rows with equal sequences open.
- Redis.RedisRecord.CommitPoll: takes typed arguments; the flattening into one string vector, JSON round trips of payloads, key names and the set of known keys are not modelled.
- Redis.RedisRecord.RetryParked: assumes nothing happens between the read and the script; `RetryScript` alone is stated for any arguments.
- Redis.RedisRecord.LoadPending: reads the sorted set and the three hashes in one step; the original makes four round trips. `Redis.SplitRead` says what a reader sees when acks, parks or attempts land in between, as long as no listed id is written anew.
- Canonical.TextIsFaithful: takes the text of finite numbers as an injective printer over digits, signs, point and `e`; `toJSON`, boxed primitives and cycles are not modelled, since values are trees.
- Bucket.WaitIsExact: uses integer costs and times, so the tolerance for fractional ones does not appear.
- Scheduler.ThrottleHolds: takes jitter and backoff delays as arbitrary amounts; their ranges are not stated.
- BudgetManager.Budget.Resume: one budget; the table of budgets by name and the wait reported to hooks are not modelled.
- Consumers.SubscribeConsumer.Next: a second pull before the first was answered replaces it, as in the source; the promise of the first is not modelled.
- The `previous` payload carried by events, and errors thrown by `identity` or `fingerprint`.
