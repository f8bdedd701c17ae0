# Verification of Sub0MemPage

Sub0MemPage fills caller-owned memory from immutable sources. This project models its four headers: each on its
own, against every input and every environment its contract allows, and then a pool or a transfer set together
with the backend and all its workers.

- **SlotPool** caches the chunks of a source in fixed slots. Four mechanisms share one invariant: an
  open-addressed index from chunks to slots, a slot state machine with pins and generations, a one-bit CLOCK
  sweep with two admission classes, and waiter lists threaded through one array.
- **TransferSet** hands out disjoint ranges of a caller's destination, each reserved until its transfer is
  terminal and its claim is gone.
- **LocalFileBackend** is a bounded ring drained by worker threads and by shutdown, and reads files in the
  buffered or the uncached mode.
- `transfer.hpp` has the range arithmetic they share and the contract between issuers and backends, which is
  here the environment of every run.

## How it is built

Each class that updates itself in place is a Dafny class (`SlotPool.dfy`, `TransferSet.dfy`,
`LocalFileBackend.dfy`): one method a critical section or a step of one, with the source's loops, its index
table, its intrusive lists, its swap-remove vector and its ring. A method's contract says that the new
abstract state, and what it returns, are what a function of the old state gives. Those functions are in
`PoolModel.dfy`, `TransferModel.dfy` and `BackendModel.dfy`; what they mean is proved about them in lemmas.
The three run modules (`PoolRuns.dfy`, `TransferRuns.dfy`, `BackendRuns.dfy`) let callers, threads and backend
take steps in any order, and prove what holds in every reachable state. `Stack.dfy` and `TransferStack.dfy` put a
pool's or a set's runs and the backend's together and prove that every joint run is one of those.

| part | files |
|---|---|
| vocabulary, sums, products, bytes | `Transfer`, `Sums`, `Products`, `Memory` |
| pool state, tiling, CLOCK | `PoolState`, `ChunkTiling`, `ClockSweep` |
| pool operations and what they keep | `PoolModel`, `PoolInvariant`, `PoolSteps`, `PoolResolve`, `PoolHints`, `PoolExhaustion`, `PoolCounts` |
| pool over runs | `PoolRuns`, `PoolTheorems`, `PoolProgress`, `PoolWaits`, `PoolTallies`, `PoolReads`, `PoolSpans`, `PoolPins`, `PoolTickets`, `PoolFailures` |
| index, lists, the class | `ChunkIndex`, `WaiterLists`, `SlotPoolFacts`, `SlotPool` |
| explicit destinations | `TransferModel`, `TransferRuns`, `TransferWaits`, `TransferSet` |
| the file backend | `BackendModel`, `BackendRuns`, `LocalFileBackend`, `DirectRead`, `Registrations`, `BackendProgress` |
| the layers together | `Fills`, `Jobs`, `Service`, `Stack`, `StackTheorems`, `StackSources`, `StackProgress`, `TransferStack`, `TransferProgress` |

`dafny verify dfyconfig.toml` checks everything.

## What the proofs found

- A declared CLOCK sweep counts its `2 * num_slots` steps in 32 bits (`slot_pool.hpp:451-453`). `create`
  accepts up to 2^32 - 2 slots, so from 2^31 slots on the count wraps, the sweep stops early, and `resolve` and
  declared `prefetch` can report pool_exhausted although a slot is free, against its documentation
  (`transfer.hpp:32`). The model keeps the wrap. `PoolExhaustedIsReal` proves that pool_exhausted means what it
  says, over every run, if and only if num_slots is below 2^31; `Overlooking` is the run that shows it does not
  above, and `SweepCutShort` says what a sweep does there.
- The alignment check of an uncached request adds offset and length in 64 bits (`local_file_backend.hpp:394`).
  The wrap only ever refuses more; `UncachedValidMeaning` says exactly when. No request of a pool or a
  transfer set can reach it.
- The comment on `resolve` says that on any failure no lease is left held (`slot_pool.hpp:189`). That is false of
  the code. A call that fails validation, or whose span is too short, returns before it releases anything
  (`EmptyBatchKeeps`), and a call that proceeds releases and unwinds only the entries it would overwrite, so a
  lease further on stays (`TailKeeps`). `FailedCallSpan` is the exact condition, for resolve and try_resolve:
  after a failure no entry holds a lease if and only if none did before, or the call proceeded and no entry past
  the batch's chunks did. That the entries it overwrites are released (`slot_pool.hpp:191-192`) holds whenever
  the call proceeds.
- A slot's pin count has 32 bits (`slot_pool.hpp:222`) and nothing bounds the leases of one slot. `PinsFitExactly`:
  every pin count of every run fits if and only if fewer than 2^32 leases may be outstanding.

## Choices

- Generations, pin counts and 64-bit counters do not wrap: the model's are unbounded. Offsets, lengths, the hash, the
  sweep's step count and the alignment check keep the source's widths.
- A critical section is one atomic step. `resolve` is two: up to its wait, and after it. The backend's answer
  to each submit of a call is a parameter of the call.
- A backend may overwrite the destination of a request it has accepted and not delivered, deliver it once, and
  deliver any other token at any time; a duplicate delivery does not write. A result's status is never
  `pending`; what a delivery of that status would do, `OnCompleteExact` says.
- The backend's source table has room for exactly the number it was reserved for.
- Where the source terminates the process on a lease, ticket or claim that is not current, the method has a
  precondition.
- `& mask` is written as a cyclic step and a cyclic distance; `ChunkIndex.MaskIsCyclic` is the proof that they
  are the same for a table whose size is a power of two.
- `for_each_chunk` and its callback are a method that returns the chunks in order and a loop over them.
- The device may answer a read with an error, an interruption (finitely often), or a number of bytes; whatever it
  answers it may store anything in the part of the buffer it was asked to fill, except that the bytes it reports
  are the file's. It reports none only at the end of the file and, uncached, fewer than asked only there. What it
  stores does not depend on what the buffer held.
- In a joint run the backend may move on before every submit of a call that holds the pool's lock. A store, which
  the call neither sees nor affects, comes before or after the call; so does a delivery to the pool, which needs
  the lock. Other issuers share queue, workers and shutdown; their destinations are not this issuer's memory.

## Model

| member | source | states |
|---|---|---|
| Transfer.CheckedEnd | include/sub0mempage/transfer.hpp:145-151 | The end is given exactly when the 64-bit sum does not wrap, and then it is the true sum. |
| Transfer.ValidateRange | include/sub0mempage/transfer.hpp:154-160 | Ok exactly for a non-empty range inside the extent, with the sum taken over the integers; otherwise empty_range exactly for length zero, else out_of_range. |
| Transfer.ClassifyFill | include/sub0mempage/transfer.hpp:163-168 | Ok exactly when the backend said ok and the byte count is the one asked for; a failure keeps the backend's status; ok with another count is a short read. |
| ChunkTiling.CheckBatchMeaning | include/sub0mempage/slot_pool.hpp:374-388 | validate_batch returns ok exactly when every range lies in the source and the batch names between 1 and max_batch_chunks chunks, and then its count is the number of chunks visited. |
| ChunkTiling.CheckBatchFailure | include/sub0mempage/slot_pool.hpp:374-388 | Why a batch fails: it has no range, or its first range that does not pass decides, with the status of that range, or with batch_too_large when its chunks go beyond the bound. |
| ChunkTiling.RangeTiling | include/sub0mempage/slot_pool.hpp:364-372 | The leases of one range are consecutive, the first starts at its offset and the last ends at its end, whichever slots they land in: an exact cover. |
| ChunkTiling.LeaseInside | include/sub0mempage/slot_pool.hpp:585-599 | Every lease is non-empty, inside its slot's part of the storage; no 64-bit sum or product on the way (chunk + 1, chunk start, chunk end) wraps. |
| ChunkTiling.LeaseFor | include/sub0mempage/slot_pool.hpp:585-599 | A lease's bytes lie in its chunk (clipped at the end of the source) and in its range, at the matching source offset. |
| ChunkTiling.SlotsApart | include/sub0mempage/slot_pool.hpp:395-397 | Two slots' parts of the storage never overlap. |
| SlotPoolClass.SlotPool.ValidateBatch | include/sub0mempage/slot_pool.hpp:374-388 | The loop returns the status and count of the first range that fails, else of the whole batch, in 64-bit arithmetic. |
| SlotPoolClass.SlotPool.ForEachChunk | include/sub0mempage/slot_pool.hpp:363-372 | The nested loops visit exactly the chunks of the batch, in request order, and the chunk counter never wraps. |
| ChunkIndex.HashInTable | include/sub0mempage/slot_pool.hpp:402-404 | The multiplicative hash with shift 64 - k is below 2^k: a home function into the table. |
| ChunkIndex.MaskIsCyclic | include/sub0mempage/slot_pool.hpp:406-440 | Masking with a table size of 2^k is the cyclic step and the cyclic distance, also across the 64-bit wrap of the subtraction; so the index is stated with those. |
| ChunkIndex.ProbeMiss | include/sub0mempage/slot_pool.hpp:406-414 | A probe that reaches an empty cell from the chunk's home proves that no indexed slot holds the chunk, for any home function into the table. |
| ChunkIndex.EmptyCell | include/sub0mempage/slot_pool.hpp:344-349 | At load at most one half some cell is empty, so every probe loop ends. |
| ChunkIndex.InsertOk | include/sub0mempage/slot_pool.hpp:416-423 | Putting a new key in the first empty cell from its home keeps every entry reachable and adds exactly that key. |
| ChunkIndex.ShiftMove | include/sub0mempage/slot_pool.hpp:432-438 | Moving an entry whose home is not in (hole, pos] back into the hole keeps every other entry reachable once the new hole is closed. |
| ChunkIndex.ShiftSkip | include/sub0mempage/slot_pool.hpp:432-438 | An entry whose home is in (hole, pos] stays reachable where it is. |
| ChunkIndex.ShiftEnd | include/sub0mempage/slot_pool.hpp:432-440 | When the shift meets an empty cell, emptying the hole restores the full index invariant, without tombstones. |
| SlotPoolClass.SlotPool.IndexFind | include/sub0mempage/slot_pool.hpp:406-414 | Returns the one slot that is live for the chunk, or NONE exactly when there is none; the loop terminates by the load bound. |
| SlotPoolClass.SlotPool.IndexInsert | include/sub0mempage/slot_pool.hpp:416-423 | Adds exactly the slot to the index; all entries stay reachable from their homes. |
| SlotPoolClass.SlotPool.IndexErase | include/sub0mempage/slot_pool.hpp:425-440 | Removes exactly the entry of the slot that is live for the chunk (backward shift); every other entry stays reachable from its home without crossing an empty cell. |
| SlotPoolFacts.TableFits | include/sub0mempage/slot_pool.hpp:344-349 | The table chosen at construction has at least twice the slots and at most 2^33 cells, so the hash shift is between 31 and 63. |
| SlotPoolFacts.MaskInTable | include/sub0mempage/slot_pool.hpp:406-440 | In the pool's own table, masking with the size less one is the cyclic step and distance the loops are written with. |
| ClockSweep.SweepChoice | include/sub0mempage/slot_pool.hpp:442-480 | Whom a claim takes: the first free or unreferenced unpinned slot in cyclic order, for declared admission else the first unpinned ready one, and NONE exactly when there is no such slot (declared: if two revolutions can be counted). Speculative clears nothing. |
| ClockSweep.SweepClears | include/sub0mempage/slot_pool.hpp:450-480 | A declared sweep clears exactly the bits of unpinned, ready, referenced slots it passes over: up to a victim of the first revolution, all for one of the second, and as many as it has steps for when it finds none. |
| ClockSweep.SweepHand | include/sub0mempage/slot_pool.hpp:450-480 | Where a claim leaves the hand: right after its victim, which is then the last slot the next sweep looks at in its first revolution; without a victim where the counted steps end, which is where it was after whole revolutions. |
| PoolExhaustion.SweepReachesAll | include/sub0mempage/slot_pool.hpp:450-453 | The 32-bit step count `2 * n` wraps: in every state a pool can be in a declared claim misses no reclaimable slot, if and only if num_slots is below 2^31. |
| PoolExhaustion.PoolExhaustedIsReal | include/sub0mempage/slot_pool.hpp:752-758 | For every configuration: over every run, a resolve that reports pool_exhausted finds every slot pinned or filling, if and only if num_slots is below 2^31. |
| PoolExhaustion.OverlookingDoes | include/sub0mempage/slot_pool.hpp:450-479 | The run that shows the failure, for every num_slots from 2^31 on: at 2^31 a new pool, above it one where all slots but the last hold pinned failed fills and the backend refused the last. |
| PoolExhaustion.OverlooksReports | include/sub0mempage/slot_pool.hpp:649-652 | In such a pool a one-byte resolve fails with pool_exhausted, and a one-byte declared prefetch records it, while a slot is free. |
| ClockSweep.SweepCutShort | include/sub0mempage/slot_pool.hpp:450-453 | In a pool of 2^31 slots or more a declared claim finds a victim exactly when one is free or unreferenced within the first 2n - 2^32 steps. |
| SlotPoolClass.SlotPool.ClaimVictim | include/sub0mempage/slot_pool.hpp:450-480 | The bounded sweep computes that choice: victim, final hand, cleared bits, eviction and wasted-prefetch counts, and the victim leaves the index. |
| SlotPoolClass.SlotPool.Evict | include/sub0mempage/slot_pool.hpp:472-478 | An eviction frees the slot, takes it out of the index and counts itself and a wasted prefetch. |
| SlotPoolClass.SlotPool.MakeFree | include/sub0mempage/slot_pool.hpp:482-493 | Frees the slot and takes it out of the index if it was live. |
| SlotPoolClass.SlotPool.StartFill | include/sub0mempage/slot_pool.hpp:495-518 | Names, indexes and submits the slot for its chunk; a refused submit leaves it free and out of the index. |
| PoolInvariant.StartFillInv | include/sub0mempage/slot_pool.hpp:495-518 | A started fill keeps one live slot per chunk and every counter; a refused one changes only the slot's chunk and generation and the high water. |
| PoolInvariant.ClaimInv | include/sub0mempage/slot_pool.hpp:450-480 | A claim keeps the pool invariant, other slots lose at most a reference bit, and the hand moves as a sweep's does. |
| SlotPoolClass.SlotPool.PublishOutcome | include/sub0mempage/slot_pool.hpp:553-561 | The walk over the slot's list writes the outcome to exactly the entries that await this slot, empties the list and brings every record's pending count and in_use up to date. |
| SlotPoolClass.SlotPool.OnComplete | include/sub0mempage/slot_pool.hpp:524-566 | One delivery, whole, of any status: stale ones only counted, a full fill made ready, anything else failed and out of the index at once, and the ticket outcomes published; index and lists are kept, and the pool invariant for every result. |
| SlotPoolClass.SlotPool.FailFill | include/sub0mempage/slot_pool.hpp:537-551 | A failed fill leaves the index before it is published, and is freed if nothing pins it. |
| PoolSteps.OnCompleteExact | include/sub0mempage/slot_pool.hpp:524-566 | A delivery keeps the pool invariant and the meaning of pending outcomes exactly if its status is a result, or it is stale, or nobody pins or awaits the fill. |
| PoolTallies.FillsAccountedFor | include/sub0mempage/slot_pool.hpp:527-545 | Over every run: stale and failed counts are the numbers of such deliveries, bytes_read the bytes of the chunks filled, and accepted fills = filled + failed + in flight. |
| WaiterLists.Disjoint | include/sub0mempage/slot_pool.hpp:553-561 | No waiter entry is in two slots' lists. |
| WaiterLists.Popped | include/sub0mempage/slot_pool.hpp:553-561 | Taking the head entry off a slot's list keeps all lists acyclic, disjoint and exact. |
| WaiterLists.Pushed | include/sub0mempage/slot_pool.hpp:660-664 | Linking an unlinked entry at a head keeps all lists acyclic, disjoint and exact. |
| WaiterLists.HeadMeaning | include/sub0mempage/slot_pool.hpp:553-561 | A list is empty exactly when nothing is linked to its slot. |
| PoolWaits.BlockEntry | include/sub0mempage/slot_pool.hpp:553-561 | In every record an entry is linked exactly when its prefetch used it and its outcome is pending. |
| SlotPoolClass.SlotPool.TakeEntry | include/sub0mempage/slot_pool.hpp:553-561 | One step of the walk: the entry is unlinked, has its outcome, and its record (entry / max_batch_chunks) counts one less. |
| SlotPoolFacts.CountedOk | include/sub0mempage/slot_pool.hpp:556-559 | Decrementing the owner's count when one of its entries is unlinked keeps every record's count equal to its linked entries and in_use equal to held or pending. |
| SlotPoolFacts.NothingQueued | include/sub0mempage/slot_pool.hpp:495-501 | A slot that is not filling has an empty list, so resetting its head loses no waiter. |
| SlotPoolClass.SlotPool.Prefetch | include/sub0mempage/slot_pool.hpp:619-674 | The loops over index, CLOCK, lists and tickets compute the batch's effect on the pool, for every sequence of backend answers. |
| SlotPoolClass.SlotPool.PrefetchChunk | include/sub0mempage/slot_pool.hpp:625-667 | One hinted chunk: its entry settles at once or joins a fill. |
| SlotPoolClass.SlotPool.PrefetchMiss | include/sub0mempage/slot_pool.hpp:648-658 | The miss branch: claim, submit, and the reason when there is no fill. |
| PoolSteps.PrefetchInv | include/sub0mempage/slot_pool.hpp:619-674 | A prefetch keeps the pool invariant; it changes nothing when refused, and otherwise it issues a record that was not in use with one entry per chunk, linked exactly if its outcome is pending, and the ticket has the record's new generation. |
| PoolSteps.PrefetchAnswer | include/sub0mempage/slot_pool.hpp:621-631 | A prefetch is refused with the status of validation, or as ticket_exhausted exactly when every record is in use, and else issues a ticket on the first record that is not. |
| PoolTickets.TicketStaysGood | include/sub0mempage/slot_pool.hpp:672-674 | Over every run, from its prefetch to its own discard a ticket's record is held and has the ticket's generation, so its discard never meets the terminate check. |
| PoolTickets.NoTwoAlike | include/sub0mempage/slot_pool.hpp:672-674 | No two prefetches of a run issue the same ticket. |
| PoolCounts.FirstTicket | include/sub0mempage/slot_pool.hpp:632-636 | The first ticket of a new pool is record 0 with generation 1. |
| PoolSteps.PrefetchChunkInv | include/sub0mempage/slot_pool.hpp:637-667 | Each chunk keeps every record's pending count equal to its linked entries, hint conservation and the slot invariants. |
| PoolHints.OutcomeMeaning | include/sub0mempage/slot_pool.hpp:640-664 | When each outcome is recorded: ok iff ready already; pending iff the entry awaits a fill of this very chunk; declined iff a guess found no takeable slot; pool_exhausted iff a declared hint found no victim; queue_exhausted iff the backend refused. |
| PoolCounts.PrefetchCounted | include/sub0mempage/slot_pool.hpp:638-667 | What a prefetch counts: each outcome of its ticket once as declined, admission failure, resident or admitted; an admitted hint for each request the backend accepted; a coalesced one for each pending chunk beyond those; an eviction for each slot that is no longer ready. |
| PoolCounts.ClaimCounted | include/sub0mempage/slot_pool.hpp:472-478 | A claim counts an eviction exactly when its victim was ready. |
| PoolCounts.StartFillCounted | include/sub0mempage/slot_pool.hpp:495-518 | The high water rises to the slots in use with the one being named, whatever the backend answers; nothing else is counted. |
| PoolCounts.FilledOrEvicted | include/sub0mempage/slot_pool.hpp:472-478 | Over every run: deliveries that filled a chunk = evictions + slots that are ready. |
| PoolHints.HintsSpare | include/sub0mempage/slot_pool.hpp:619-674 | A prefetch sets no reference bit, and a speculative one leaves every ready slot that has its bit exactly as it was. |
| SlotPoolClass.SlotPool.Wait | include/sub0mempage/slot_pool.hpp:676-708 | Refuses another pool's ticket; otherwise the tally loop over the ticket's entries computes the reported outcome. |
| PoolWaits.WaitReports | include/sub0mempage/slot_pool.hpp:676-708 | Every chunk of the ticket is counted once, by its outcome; nothing is pending exactly when the record's count is zero; timeout iff something is; ok iff every chunk filled, else the first failure in request order. |
| PoolWaits.TallyMeaning | include/sub0mempage/slot_pool.hpp:692-707 | Filled, pending and declined are the numbers of entries with those outcomes (declined: declined, pool_exhausted or queue_exhausted), failed is the rest, and the status is the first that is neither ok nor pending. |
| PoolWaits.OutcomeWrittenOnce | include/sub0mempage/slot_pool.hpp:553-561 | Over any event: an entry's outcome changes only when the fill it awaits is delivered, and becomes that fill's result, never pending. |
| PoolWaits.OutcomeOfItsFill | include/sub0mempage/slot_pool.hpp:553-561 | Over whole runs, from the join: the entry awaits the same slot in the same generation, pending, until that fill's delivery, and from then on has that delivery's result for as long as its record is in use. |
| PoolWaits.NoMissedWakeup | include/sub0mempage/slot_pool.hpp:676-708 | In every reachable state of the monitor (any interleaving, spurious wakeups, time-outs) the predicate of every sleeping ticket, resolve or drain waiter is false. |
| PoolWaits.StaysBlocked | include/sub0mempage/slot_pool.hpp:771-775 | Only a genuine delivery, which notifies under the lock, can make a sleeper's predicate true. |
| SlotPoolClass.SlotPool.DiscardTicket | include/sub0mempage/slot_pool.hpp:710-721 | Dropping a ticket frees its record exactly if nothing is pending. |
| PoolSteps.DiscardTicketInv | include/sub0mempage/slot_pool.hpp:710-721 | Dropping a ticket keeps the invariant and every other ticket; its record is held no more, and stays in use exactly while entries are linked. |
| SlotPoolClass.SlotPool.DistinctSlots | include/sub0mempage/slot_pool.hpp:607-615 | The quadratic count is the size of the set of slots the leases name. |
| SlotPoolClass.SlotPool.MakeLease | include/sub0mempage/slot_pool.hpp:585-599 | Pins the slot and cuts the lease by the max/min arithmetic, without 64-bit wrap. |
| SlotPoolClass.SlotPool.UnpinLocked | include/sub0mempage/slot_pool.hpp:568-574 | Drops one pin; the last pin on a failed slot frees it. |
| SlotPoolClass.SlotPool.ReleaseLease | include/sub0mempage/slot_pool.hpp:576-583 | A release of a current lease drops exactly one pin of its slot and keeps the pool invariant. |
| SlotPoolClass.SlotPool.ReleaseAll | include/sub0mempage/slot_pool.hpp:601-605 | Resets the first entries of the caller's span, dropping exactly the pins they held. |
| SlotPoolClass.SlotPool.ResolveBegin | include/sub0mempage/slot_pool.hpp:723-770 | resolve up to its wait over the caller's span: untouched when validation or room fails; otherwise its old leases released, and new ones written, or all of those entries emptied on failure, the rest kept; after a failure no lease is held exactly when `Emptied` held of the span before. |
| SlotPoolClass.SlotPool.ResolveFinish | include/sub0mempage/slot_pool.hpp:776-786 | resolve after its wait: success keeps the leases, a failed slot empties them and drops exactly their pins. |
| SlotPoolClass.SlotPool.ResolveChunk | include/sub0mempage/slot_pool.hpp:744-766 | One chunk of a resolve: hit, join, or claim and fill, with its lease written at the next place. |
| SlotPoolClass.SlotPool.ResolveMiss | include/sub0mempage/slot_pool.hpp:750-762 | A miss fails as batch_too_large exactly when this call's leases name every slot, else as pool_exhausted, when there is no victim. |
| SlotPoolClass.SlotPool.Unwind | include/sub0mempage/slot_pool.hpp:736-743 | Undoes exactly the pins this call took and empties their places. |
| PoolResolve.ResolveBeginInv | include/sub0mempage/slot_pool.hpp:723-770 | All or nothing: on failure every slot has the pins it had; on success exactly one pin per chunk, in request order, each on a live slot for that chunk, cut to the range. What validation refuses fails with its status, and too short a span with batch_too_large. |
| PoolResolve.ResolveFailure | include/sub0mempage/slot_pool.hpp:744-766 | Why a valid call fails before its wait, and at which chunk: batch_too_large iff its own pins cover every slot; the backend refused iff the sweep had a victim in reach, for every slot count. |
| SlotPoolFacts.FailedSpan | include/sub0mempage/slot_pool.hpp:723-743 | What a failed call makes of the span: the entries it would overwrite are empty if it proceeds, and no lease is left held iff none was held before, or it proceeded and none was held past those entries. |
| PoolSpans.FailedCallSpan | include/sub0mempage/slot_pool.hpp:187-196 | The same for whole calls: resolve, whatever ran while it waited, and try_resolve, in any world. It is the exact condition of `on any failure no lease is left held`. |
| PoolSpans.HoldFirstHolds | include/sub0mempage/slot_pool.hpp:723-786 | A run after which a one-slot pool's caller holds a lease of its only slot. |
| PoolSpans.EmptyBatchKeeps | include/sub0mempage/slot_pool.hpp:726-731 | First failing input: there an empty batch fails with empty_range, and the lease in the span stays held. |
| PoolSpans.TailKeeps | include/sub0mempage/slot_pool.hpp:732-758 | Second failing input: there a one-chunk batch over a span of two fails with pool_exhausted (try_resolve: not_resident), and the lease in the second entry stays held. |
| PoolResolve.TooManyChunks | include/sub0mempage/slot_pool.hpp:752-762 | A batch with more distinct chunks than slots always fails before the wait: resolve never deadlocks on its own pins. |
| PoolResolve.ResolveFinishInv | include/sub0mempage/slot_pool.hpp:771-786 | After the wait it succeeds exactly when no pinned slot failed, and then all are ready; otherwise it reports the failure of the first failed slot in request order, and exactly its own pins are gone. |
| PoolResolve.FirstFailureMeaning | include/sub0mempage/slot_pool.hpp:776-781 | The reported failure is ok exactly when no pinned slot failed, otherwise that of the first failed one, and never pending. |
| PoolResolve.UnpinAllInv | include/sub0mempage/slot_pool.hpp:568-583 | Dropping pins one by one drops exactly those, and frees exactly the failed slots they were last on. |
| PoolHints.ResolveIsAccess | include/sub0mempage/slot_pool.hpp:744-766 | Every slot a resolve pins ends with its reference bit set and its prefetch consumed, despite later chunks of the same call; each chunk looked at counts once as hit, join or miss. |
| PoolCounts.ResolveCounted | include/sub0mempage/slot_pool.hpp:744-766 | What a resolve counts: a hit for each lease on a ready slot, a miss for each request the backend accepted and for a chunk that could not be had, a coalesced access for each other lease, an eviction for each slot that is no longer ready; no hint. |
| PoolCounts.TryResolveCounted | include/sub0mempage/slot_pool.hpp:805-816 | A try_resolve counts a hit for each of its leases and nothing else. |
| PoolCounts.PassiveCounts | include/sub0mempage/slot_pool.hpp:568-605 | Discards, releases, demotions and the end of a resolve count nothing and do not move the hand. |
| PoolFailures.FailureOfItsFill | include/sub0mempage/slot_pool.hpp:771-785 | Over every run, a resolve that fails after its wait reports what was delivered, while it waited, for the fill that the first of its failed leases pins. |
| PoolFailures.EventStay | include/sub0mempage/slot_pool.hpp:520-566 | Nothing but the delivery of its fill changes the state, the generation or the failure of a pinned slot. |
| SlotPoolClass.SlotPool.TryResolve | include/sub0mempage/slot_pool.hpp:788-817 | try_resolve over the caller's span: leases for all of the batch, or none; what a failure leaves held, as for resolve. |
| PoolResolve.TryResolveInv | include/sub0mempage/slot_pool.hpp:788-817 | Succeeds exactly when the batch is valid, fits and every chunk is ready; starts no fill; changes nothing on failure, which is not_resident when batch and span are good. |
| SlotPoolClass.SlotPool.WontNeed | include/sub0mempage/slot_pool.hpp:819-831 | The loops clear the reference bit of exactly the live slots whose chunk some valid range names; invalid ranges are skipped. |
| PoolSteps.WontNeedInv | include/sub0mempage/slot_pool.hpp:819-831 | Demotion keeps every invariant and every pin. |
| PoolSteps.WontNeedClears | include/sub0mempage/slot_pool.hpp:819-831 | Demotion takes the bit from exactly the live slots whose chunk has a byte in a valid range, and changes nothing else. |
| SlotPoolClass.SlotPool.GetStats | include/sub0mempage/slot_pool.hpp:843-852 | The counters as they are, and the slots counted by state; those filling are the fills in flight and within the high water. |
| SlotPoolClass.SlotPool.Create | include/sub0mempage/slot_pool.hpp:324-339 | Registration succeeds exactly for the configurations the pool can serve, by the source's overflow-safe checks, and yields a valid pool. |
| SlotPoolClass.SlotPool.constructor | include/sub0mempage/slot_pool.hpp:341-350 | A created pool has an empty index of at least twice its slots, empty lists and the initial state. |
| PoolCounts.HintedHand | include/sub0mempage/slot_pool.hpp:638-667 | A hinted chunk moves the hand as a claim does if it is absent, and not at all otherwise. |
| PoolCounts.ResolvedHand | include/sub0mempage/slot_pool.hpp:744-766 | The same for a chunk of a resolve. |
| PoolCounts.NewPool | include/sub0mempage/slot_pool.hpp:342-351 | A new pool has counted nothing: hand at zero, every slot free, every record unused, all generations zero. |
| PoolProgress.WaitShrinks | include/sub0mempage/slot_pool.hpp:770-775 | Once a resolve waits, its set of pinned filling slots only shrinks: by exactly the delivered slot on a genuine delivery, by nothing on any other event, and the call ends only when it is empty. |
| PoolProgress.WaitEnds | include/sub0mempage/slot_pool.hpp:770-775 | While it waits the backend owes each fill it waits for; when it waits for none it can return. |
| PoolProgress.DeliveryShrinks | include/sub0mempage/slot_pool.hpp:524-566 | Delivering an awaited fill, whatever its result, strictly shrinks what the resolve waits for. |
| PoolProgress.EventSteady | include/sub0mempage/slot_pool.hpp:524-566 | No event but the backend's delivery ends a fill, and none starts one on a pinned slot. |
| PoolSteps.AdvancesTransitive | include/sub0mempage/slot_pool.hpp:769-775 | The relation that protects a waiting resolve's pins from other callers is transitive. |
| PoolRuns.RunOk | include/sub0mempage/transfer.hpp:109-119 | Over every interleaving of callers with backend writes, deliveries in any order and stale or duplicate tokens: the pool invariant, every pin owned by one lease, every ready slot holding its chunk's source bytes, and outstanding requests = fills in flight. |
| PoolRuns.EventOk | include/sub0mempage/slot_pool.hpp:495-566 | One event of any kind keeps all of that. |
| PoolTheorems.LeasedBytes | include/sub0mempage/slot_pool.hpp:585-599 | After any run a lease shows exactly its part of the source, and shows the same in every later world in which it is still held. |
| PoolReads.ResolveShows | include/sub0mempage/slot_pool.hpp:723-786 | A resolve that succeeds: when it returns, and in every later world in which its leases are held, the leases of each range, joined, show exactly that range of the source, whatever ran while it waited. |
| PoolReads.TryResolveShows | include/sub0mempage/slot_pool.hpp:788-817 | The same for try_resolve. |
| PoolTheorems.NoWriterUnderLease | include/sub0mempage/transfer.hpp:109-119 | A request the backend may still write for has a filling slot to itself, so never one that is leased or ready. |
| PoolTheorems.Accounting | include/sub0mempage/slot_pool.hpp:482-518 | In every reachable world in_flight = outstanding requests <= non_free <= high water <= num_slots, pins_total = leases held by callers and waiting resolves; nothing goes below zero. |
| PoolPins.PinsAtMostLeases | include/sub0mempage/slot_pool.hpp:568-599 | In every reachable world a slot has at most as many pins as there are leases held or of waiting resolves, and never fewer than none. |
| PoolPins.HoldHolds | include/sub0mempage/slot_pool.hpp:788-817 | For every number of leases, a run of one-byte resolves after which that many are held on one slot. |
| PoolPins.PinsFitExactly | include/sub0mempage/slot_pool.hpp:220-222 | For every bound: in all reachable worlds with at most so many leases outstanding every pin count fits the source's 32 bits, if and only if the bound is below 2^32. |
| PoolTheorems.Hints | include/sub0mempage/slot_pool.hpp:638-667 | Over every run hint_issued = resident + admitted + declined + admission failures, and hint_admitted = unconsumed + consumed by a resolve + still flagged; no chunk is live in two slots. |
| PoolTheorems.Quiescent | include/sub0mempage/slot_pool.hpp:352-359 | With no lease, ticket, waiting resolve or fill outstanding, every slot is free or ready and every ticket record reusable. |
| TransferModel.SubmitInv | include/sub0mempage/transfer_set.hpp:217-266 | Which answer a submit gets, each exactly when: the status of validation, out_of_range, busy if it would overlap a range in use, ticket_exhausted, queue_exhausted, or a claim on a record that was not in use, with the record's new generation; a refusal changes nothing and the invariant is kept. |
| TransferModel.OnCompleteExact | include/sub0mempage/transfer_set.hpp:272-298 | A delivery keeps disjoint in-bounds ranges, the free stack exact and submitted = completed + failed + in_flight, exactly if its status is a result, or it is stale, or its claim was dropped. |
| TransferModel.ReleaseInv | include/sub0mempage/transfer_set.hpp:315-328 | A release keeps the invariant and every other record; its own is free again exactly if its transfer has ended. |
| TransferModel.ReusesLast | include/sub0mempage/transfer_set.hpp:202-208 | The record of a claim released after its transfer has ended is the one the next submit takes. |
| TransferModel.FirstClaim | include/sub0mempage/transfer_set.hpp:197-199 | The first claim of a new set is record 0 with generation 1. |
| TransferRuns.TransfersAccountedFor | include/sub0mempage/transfer_set.hpp:280-290 | Over every run each delivery counter is the number of deliveries of its kind, bytes_read the bytes of the completed transfers, and accepted transfers = completed + failed + in flight. |
| TransferModel.FreeRoom | include/sub0mempage/transfer_set.hpp:231-233 | The free stack is empty exactly when every record is in use. |
| TransferSetClass.Partition | include/sub0mempage/transfer_set.hpp:250-258 | Every record index is in the live vector or on the free stack, never both, and live exactly when in use. |
| TransferSetClass.SwapRemoved | include/sub0mempage/transfer_set.hpp:202-208 | Swap-remove with back-pointers keeps live_[live_at_[r]] == r for every other live record, including when the removed one is last. |
| TransferSetClass.LiveCount | include/sub0mempage/transfer_set.hpp:250-258 | The number of records in use is the length of the live vector. |
| TransferSetClass.TransferSet.Busy | include/sub0mempage/transfer_set.hpp:226-232 | The scan of the live vector alone decides whether any record in use overlaps. |
| TransferSetClass.TransferSet.Submit | include/sub0mempage/transfer_set.hpp:217-266 | The method computes that outcome and keeps vector, back-pointers and stack consistent. |
| TransferSetClass.TransferSet.OnComplete | include/sub0mempage/transfer_set.hpp:272-298 | The method computes the delivery, of any status; a dropped claim's record retires here; the live vector is kept, and the invariant for every result. |
| TransferSetClass.TransferSet.RetireRecord | include/sub0mempage/transfer_set.hpp:202-208 | Swap-remove from the live vector and push on the free stack. |
| TransferSetClass.TransferSet.ReleaseClaim | include/sub0mempage/transfer_set.hpp:315-328 | The method computes the release and keeps the representation. |
| TransferSetClass.TransferSet.GetStatus | include/sub0mempage/transfer_set.hpp:300-313 | A submitted record: timeout for a wait that came back, pending for a poll; any other: its result. |
| TransferSetClass.TransferSet.Create | include/sub0mempage/transfer_set.hpp:186-193 | Accepts exactly non-empty source and destination and a claim bound below 2^32 - 1. |
| TransferRuns.RunOk | include/sub0mempage/transfer_set.hpp:217-328 | Over every interleaving with the backend: disjoint in-use ranges inside the destination, completed claims holding their source bytes, outstanding requests = submitted records. |
| TransferRuns.RecordKept | include/sub0mempage/transfer_set.hpp:280-296 | Only its own delivery and its own release change a record in use: a dropped pending claim keeps its range reserved until delivered, and a terminal one its bytes. |
| TransferRuns.ClaimKept | include/sub0mempage/transfer_set.hpp:300-328 | A terminal claim's result and bytes never change until its release, over any run. |
| TransferRuns.ResultOfDelivery | include/sub0mempage/transfer_set.hpp:280-290 | The delivery of a transfer decides its claim's status: ok, a short read, or the very failure delivered. |
| TransferRuns.ResultStays | include/sub0mempage/transfer_set.hpp:300-313 | ... and that is the claim's status, blocking or not, until its release, over every run. |
| TransferRuns.NoTwoAlike | include/sub0mempage/transfer_set.hpp:252-264 | No two submits of a run hand out the same claim. |
| TransferRuns.SubmittedBytes | include/sub0mempage/transfer_set.hpp:217-266 | From submit to release a claim keeps the destination it asked for, and whenever its status is ok that range holds exactly the source range it asked for. |
| TransferRuns.OkMeansSource | include/sub0mempage/transfer_set.hpp:300-313 | A claim reads ok exactly when completed, and then its bytes are its request's source bytes. |
| TransferRuns.Untouched | include/sub0mempage/transfer_set.hpp:238-247 | A byte outside every submitted range is never written. |
| TransferWaits.NoMissedWakeup | include/sub0mempage/transfer_set.hpp:300-313 | In every reachable state of the set's monitor the predicate of every thread asleep on a claim, or on the drain, is false. |
| TransferWaits.StaysBlocked | include/sub0mempage/transfer_set.hpp:330-338 | Only a genuine delivery, which notifies under the lock, can make a sleeper's predicate true. |
| TransferRuns.Quiescent | include/sub0mempage/transfer_set.hpp:210-215 | With no claim held and nothing in flight every record is free again. |
| LocalFileBackendClass.LocalFileBackend.Create | include/sub0mempage/local_file_backend.hpp:239-245 | A backend exactly if it has a worker, room in its queue and room for a source; else invalid_argument. |
| LocalFileBackendClass.LocalFileBackend.Submit | include/sub0mempage/local_file_backend.hpp:335-353 | The wrapped ring appends to the bounded FIFO, or refuses exactly when full or shut down, with the source's registration at that moment. |
| LocalFileBackendClass.LocalFileBackend.Dequeue | include/sub0mempage/local_file_backend.hpp:376-387 | Takes the oldest request off the wrapped ring and counts it in flight. |
| LocalFileBackendClass.LocalFileBackend.BeginShutdown | include/sub0mempage/local_file_backend.hpp:515-530 | Drains the ring in order, once; later calls take nothing. |
| LocalFileBackendClass.LocalFileBackend.Record | include/sub0mempage/local_file_backend.hpp:500-512 | Counts a delivered result as error, complete or short, with its bytes. |
| LocalFileBackendClass.LocalFileBackend.Register | include/sub0mempage/local_file_backend.hpp:309-323 | Refuses a duplicate id, then a full table; otherwise appends. |
| LocalFileBackendClass.LocalFileBackend.FindSource | include/sub0mempage/local_file_backend.hpp:326-333 | The linear scan finds the registered source, if any. |
| BackendRuns.DeliveredOnce | include/sub0mempage/local_file_backend.hpp:470-501 | In every reachable state an accepted request is queued, with one worker, with shutdown, or delivered: exactly one of these, once; nothing else is ever delivered. |
| BackendRuns.RefusedNever | include/sub0mempage/local_file_backend.hpp:337-340 | A request refused at submit is never delivered, whatever follows. |
| Registrations.RegisterAnswer | include/sub0mempage/local_file_backend.hpp:308-324 | Over every run: invalid_argument exactly if a registration of the id had returned ok, else ticket_exhausted exactly if as many as the table holds had, else ok. |
| Registrations.TableIsGranted | include/sub0mempage/local_file_backend.hpp:308-324 | The table holds exactly the sources whose registration returned ok, one for each id. |
| Registrations.SubmitAnswer | include/sub0mempage/local_file_backend.hpp:335-340 | Over every run: a submit is accepted exactly if no shutdown call came before it and fewer requests than the ring holds are accepted and not yet taken. |
| Registrations.AcceptedWasQueued | include/sub0mempage/local_file_backend.hpp:342-347 | Over every run: each accepted item was queued by one submit call, as it was asked for, with the source that a registration under its id had returned ok for before that call, and with none exactly if there was none. |
| Registrations.HeldWasQueued | include/sub0mempage/local_file_backend.hpp:342-347 | So it is for every item that is queued, drained or with a worker. |
| Registrations.HighWaterIsLongest | include/sub0mempage/local_file_backend.hpp:349-351 | The queue high water is the longest the queue has been. |
| Registrations.BytesCounted | include/sub0mempage/local_file_backend.hpp:504-504 | Over every run bytes_read, with those still to be recorded, is the sum of the bytes delivered. |
| BackendRuns.FifoStep | include/sub0mempage/local_file_backend.hpp:335-387 | Requests leave the queue in the order of acceptance; queue <= high water <= capacity. |
| BackendRuns.WakeStep | include/sub0mempage/local_file_backend.hpp:349-389 | With notify_one and spurious wakeups: no worker sleeps, or the runnable unoccupied workers are at least as many as the queued requests; after shutdown nobody sleeps. |
| BackendRuns.NotStranded | include/sub0mempage/local_file_backend.hpp:375-389 | A request is queued only while some worker is runnable or every worker is occupied. |
| BackendRuns.RunOk | include/sub0mempage/local_file_backend.hpp:335-546 | Order, wakeups, exactly-once and statistics hold in every reachable state of the monitor. |
| BackendRuns.StatsStep | include/sub0mempage/local_file_backend.hpp:337-351 | accepted = completed_ok + short_reads + errors + cancelled + queued + in_flight + drained but uncounted, at every point; accepted + rejected = submit calls. |
| BackendRuns.TalliedStep | include/sub0mempage/local_file_backend.hpp:503-512 | Each statistic, with what is delivered but not yet recorded, is the number of deliveries of its kind. |
| BackendRuns.ShutdownGuarantee | include/sub0mempage/local_file_backend.hpp:515-546 | When the first shutdown call returns, and ever after: nothing queued or in flight, every accepted request delivered exactly once, each statistic the number of its deliveries. |
| BackendRuns.ShutdownShrinks | include/sub0mempage/local_file_backend.hpp:515-546 | Once shutdown has begun, every step of a worker or of shutdown lowers what is left and no caller raises it. |
| BackendRuns.ShutdownMoves | include/sub0mempage/local_file_backend.hpp:539-545 | Until the first call has returned, such a step is always possible. |
| DirectRead.ReadRange | include/sub0mempage/local_file_backend.hpp:400-468 | It reports io_error exactly if the worker has no event, when it reads nothing, or a read failed, else ok; the bytes are those its reads reported. For every device the read contract allows, and a limit per read or none: an ok read reports min(length, bytes of the file from the offset); whatever the buffer held, its first bytes are the file's; nothing outside it is stored; and every read issued stays inside it and, uncached and aligned, is block-aligned. |
| DirectRead.Perform | include/sub0mempage/local_file_backend.hpp:470-501 | The whole request, split into whole blocks and a last block through scratch: all it does to memory is pieces inside the destination; invalid_argument without a read exactly for an unknown source or a misaligned uncached request; else io_error exactly if the worker has no event or a read failed, and the bytes are those read, up to the length; with a device that never fails, ok with all the bytes the file has of it, interruptions or not; all uncached reads block-aligned. |
| DirectRead.UncachedValidMeaning | include/sub0mempage/local_file_backend.hpp:392-398 | What the alignment check enforces, and exactly when its wrapping 64-bit sum refuses a request that does run to the end of the file. |
| DirectRead.TailRead | include/sub0mempage/local_file_backend.hpp:488-494 | The part of the last block that belongs to the request continues what was read in place. |
| Fills.OwedIsValid | include/sub0mempage/slot_pool.hpp:505-511 | With slots and storage aligned to 4096 and the source size registered, every request a pool is owed, in every reachable world, passes the uncached check. |
| Fills.AlignmentIsExact | include/sub0mempage/local_file_backend.hpp:392-398 | In a pool of more than one slot, all fills pass the check exactly when slot_bytes and the storage base are multiples of 4096. |
| Jobs.AskStep | include/sub0mempage/slot_pool.hpp:638-665 | What each chunk of a batch asks of the backend, and that exactly what is asked and accepted goes on record. |
| Jobs.AskIsNew | include/sub0mempage/slot_pool.hpp:495-511 | No fill is ever asked for under a token used before. |
| Service.Serve | include/sub0mempage/local_file_backend.hpp:470-501 | A worker serves an issuer's request: the work item made of it, the pieces stored and the result reported satisfy what the joint runs demand of a delivery; a readable request on a device that never fails gets ok with all that the file has. |
| Service.BackgroundOk | include/sub0mempage/local_file_backend.hpp:335-390 | A step of the backend that does not concern an issuer leaves what it holds of his requests, and what workers stored for them, as it is. |
| Service.SubmitOk | include/sub0mempage/local_file_backend.hpp:335-353 | A submit adds exactly its request to what the backend holds, or nothing. |
| Service.StoreOk | include/sub0mempage/transfer.hpp:109-119 | A worker's store touches no other destination the issuer is owed. |
| Service.DeliveryOk | include/sub0mempage/local_file_backend.hpp:500-535 | A delivery, by a worker or by shutdown, takes exactly its request from what the backend holds. |
| Service.ReportedIsHonest | include/sub0mempage/local_file_backend.hpp:482-500 | A result that a worker's own stores allow is an honest one, whatever happened between them: if it completes the request, the destination holds the source's bytes. |
| Stack.FoldOk | include/sub0mempage/slot_pool.hpp:638-667 | Over the submits of one call, with the backend moving on between them, what it holds stays exactly what the pool is owed. |
| Stack.StackStep | include/sub0mempage/transfer.hpp:109-119 | Any step of pool and backend together, with all workers at once, is for the pool nothing or one event that its runs allow, and keeps the joint invariant. |
| Stack.RunProjects | include/sub0mempage/transfer.hpp:109-119 | Every joint run of a pool and the real backend is a run of PoolRuns; so all the pool's theorems hold of it. |
| StackTheorems.LeasedFromFile | include/sub0mempage/slot_pool.hpp:585-599 | Over every joint run a lease shows the file's own bytes, all inside the real file, for as long as it is held. |
| StackTheorems.PublishedIsInFile | include/sub0mempage/slot_pool.hpp:533-551 | A worker's delivery makes a chunk ready exactly if its read succeeded and the chunk lies inside the real file; one that crosses the real end is a short read. |
| StackTheorems.InFileStep | include/sub0mempage/slot_pool.hpp:533-551 | No step makes a chunk ready that is not inside the real file. |
| StackTheorems.PerformDelivers | include/sub0mempage/local_file_backend.hpp:470-501 | A worker that in any joint run stores what Perform stores may deliver what Perform reports, and that is an honest delivery, whatever callers, other workers and shutdown did between its stores. |
| StackTheorems.OthersKeepDestination | include/sub0mempage/transfer.hpp:109-119 | No event but a write of its own request changes the bytes of a destination the pool is owed. |
| StackSources.BackendProjects | include/sub0mempage/transfer.hpp:109-119 | Every joint run is also a run of BackendRuns; so all the backend's theorems hold of it. |
| StackSources.HeldHasSource | include/sub0mempage/local_file_backend.hpp:342-347 | In every joint run an item that is held was queued by one submit, with the source registered under its id by then. |
| StackSources.RegisterIsKnown | include/sub0mempage/local_file_backend.hpp:308-324 | A registration of an issuer's source that returns ok, before he has a request, makes it known. |
| StackSources.KnownStep | include/sub0mempage/local_file_backend.hpp:335-353 | Once known, whatever the backend does every request of the issuer that it holds reads that source. |
| StackSources.WorkersRead | include/sub0mempage/local_file_backend.hpp:470-478 | In every joint run after the registration, what a worker performs for the pool reads the registered file and passes the worker's check: always in the buffered mode, in the uncached mode if slots and storage are aligned and the source is as long as the file. |
| StackTheorems.ShutdownSettles | include/sub0mempage/local_file_backend.hpp:515-546 | When the first shutdown call has returned the pool has no fill in flight, and no ticket has a chunk pending. |
| BackendProgress.ServeLowers | include/sub0mempage/local_file_backend.hpp:373-389 | Every dequeue, delivery and recording, by a worker or by shutdown, lowers by exactly one what the backend has left to do. |
| BackendProgress.OthersKeep | include/sub0mempage/local_file_backend.hpp:373-389 | No other step but a submit changes it, spurious wakeups included, except that a shutdown call may lower it. |
| BackendProgress.LoadMoves | include/sub0mempage/local_file_backend.hpp:373-389 | While anything is left, and there is a worker, such a step is enabled. |
| StackProgress.OwedMoves | include/sub0mempage/local_file_backend.hpp:373-389 | In every joint run with a worker, while the pool is owed a fill some dequeue, delivery or recording by a worker or by shutdown is enabled. |
| StackProgress.WaitMoves | include/sub0mempage/slot_pool.hpp:771-775 | While a resolve waits, it can return or such a step is enabled and lowers what is left by one: it never waits for a fill that nobody is serving. |
| StackProgress.WorkBounded | include/sub0mempage/local_file_backend.hpp:373-389 | In a run without new requests (prefetch, resolve, or another issuer's submit), spurious wakeups and shutdown calls allowed, there are at most as many such steps as were left; without a shutdown call what is left afterwards is what has not been done. |
| StackProgress.RestsWhenDone | include/sub0mempage/local_file_backend.hpp:373-389 | With a worker, no such step is enabled if and only if nothing is left. |
| StackProgress.WorkSettles | include/sub0mempage/slot_pool.hpp:771-775 | After any run, new requests included: if no such step is enabled, no fill is owed and every resolve that waits can return. |
| StackProgress.WorkCompletes | include/sub0mempage/slot_pool.hpp:771-775 | From every joint state with a worker, a run of exactly as many such steps as are left ends with no fill owed and every resolve that waits able to return, those that waited before among them. |
| StackProgress.PerformIsStep | include/sub0mempage/local_file_backend.hpp:470-501 | A worker that has stored the first of the pieces Perform stores can store the rest and then deliver what Perform reports, which is one of those steps. |
| StackProgress.MayFill | include/sub0mempage/local_file_backend.hpp:482-500 | Whatever a worker that may read has stored so far, it can still deliver ok with all the bytes the file has of its request. |
| TransferStack.RunProjects | include/sub0mempage/transfer.hpp:109-119 | Every joint run of a transfer set and the real backend is a run of TransferRuns. |
| StackSources.TransferWorkersRead | include/sub0mempage/local_file_backend.hpp:470-478 | The same for a transfer set, in the buffered mode. |
| TransferStack.InFileStep | include/sub0mempage/transfer_set.hpp:280-290 | No step completes a transfer whose source range is not inside the real file. |
| TransferStack.ClaimedBytes | include/sub0mempage/transfer_set.hpp:300-313 | Over every joint run, a held claim that reads ok asked for a range that ends inside the real file, and shows the file's own bytes of it. |
| TransferStack.ShutdownSettles | include/sub0mempage/local_file_backend.hpp:515-546 | When the first shutdown call has returned no transfer is in flight. |
| TransferProgress.InFlightMoves | include/sub0mempage/transfer_set.hpp:300-314 | In every joint run with a worker, while a transfer is in flight some dequeue, delivery or recording by a worker or by shutdown is enabled and lowers what is left by one. |
| TransferProgress.WorkBounded | include/sub0mempage/local_file_backend.hpp:373-389 | In a run without new requests there are at most as many such steps as were left. |
| TransferProgress.WorkSettles | include/sub0mempage/transfer_set.hpp:300-314 | After any run, if no such step is enabled, no transfer is in flight. |
| TransferProgress.WorkCompletes | include/sub0mempage/transfer_set.hpp:300-314 | From every joint state with a worker, a run of exactly as many such steps as are left ends with no transfer in flight. |

## Left out

- SlotPoolClass.SlotPool.Wait: is what a wait does when it is awake; sleeping, deadlines and wakeups are in the monitor of `PoolWaits`.
- SlotPoolClass.SlotPool.MakeLease: its pin count is unbounded; that is the source's 32-bit count while fewer than 2^32 leases are outstanding (`PinsFitExactly`).
- DirectRead.ReadRange: has the limit per read that the Windows loop adds, and its refusal without an event, but not its overlapped calls and error codes.
- BackendRuns.ShutdownGuarantee: is for the first shutdown call; a second one may return while the first still joins.
- Mutexes, condition variables, clocks and threads themselves: critical sections are atomic and waiting threads are a set.
- Operating-system calls: opening, sizing and closing files, overlapped I/O, and offsets above the signed 64-bit range.
- Type erasure of sinks and backends, passkeys, move construction and assignment of leases, tickets and claims, and the destructors.
- Waiter entries and slots are parallel sequences here (`next` beside `outcomes`, `heads` beside `slots`), and vectors are sequences that the methods reassign, so aliasing between them is not modelled.
- Residency after a ticket's ok: a later chunk of the same prefetch may evict an earlier one, so nothing is claimed.
- `ProbeOptions`, the tools, the benchmarks, the SYCL probe and the test backends: they would add only easy members.
