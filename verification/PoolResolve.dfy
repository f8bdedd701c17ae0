/** Resolve, try_resolve and release (slot_pool.hpp): all-or-nothing acquisition of pins. */
module PoolResolve {
  import opened Transfer
  import opened Sums
  import opened PoolState
  import opened ClockSweep
  import opened ChunkTiling
  import opened PoolModel
  import opened PoolInvariant
  import opened PoolSteps

  // ----- acquiring -----

  lemma PendingFrame(p: Pool, q: Pool)
    requires Shaped(p) && SameTickets(p, q) && PendingLinked(p)
    ensures PendingLinked(q)
  {
    forall e | 0 <= e < |q.on| ensures EntryAwaits(q, e) { assert EntryAwaits(p, e); }
  }

  lemma PinsAddedAfter(p: Pool, q: Pool, r: Pool, leases: seq<Lease>, more: seq<Lease>)
    requires PinsAdded(p, q, leases) && PinsAdded(q, r, more)
    ensures PinsAdded(p, r, leases + more)
  {
    forall i | 0 <= i < |p.slots| ensures r.slots[i].pins == p.slots[i].pins + Sum(leases + more, OnSlot(i)) {
      SumAppend(leases, more, OnSlot(i));
    }
  }

  lemma NoPinsAdded(p: Pool, q: Pool)
    requires SamePins(p, q)
    ensures PinsAdded(p, q, [])
  {
  }

  /** A step that kept every pin, then an access: together they advance the pool and add one pin. */
  lemma AccessStep(p: Pool, q: Pool, leases: seq<Lease>, slot: nat, segment: Segment)
    requires Shaped(p) && PendingLinked(p) && Kept(p, q) && SameTickets(p, q)
    requires slot < |q.slots| && LeasesInPool(q, leases) && SegmentOk(q.cfg, segment)
    requires q.slots[slot].Live() && q.slots[slot].chunk == segment.chunk
    ensures AccessAndPin(q, leases, slot, segment).failure == Ok
    ensures Acquired(p, AccessAndPin(q, leases, slot, segment), leases, segment)
  {
    hide Inv, Advances, PendingLinked, SamePins, PinsAdded, Holds;
    var b := AccessAndPin(q, leases, slot, segment);
    var lease := LeaseFor(q.cfg, slot, q.slots[slot].generation, segment);
    PendingFrame(p, q);
    AccessAndPinInv(q, leases, slot, segment);
    AdvancesTransitive(p, q, b.pool);
    NoPinsAdded(p, q);
    PinsAddedAfter(p, q, b.pool, [], [lease]);
    assert [] + [lease] == [lease];
    assert b.leases[|leases|] == lease && b.leases[|leases|..] == [lease];
  }

  /** What one chunk of a resolve leaves when it succeeds: one more pin, on a slot that holds the chunk. */
  predicate Acquired(p: Pool, b: Progress, leases: seq<Lease>, segment: Segment)
    requires Shaped(p) && SegmentOk(p.cfg, segment)
  {
    && b.failure == Ok && Inv(b.pool) && Shaped(b.pool) && PendingLinked(b.pool) && Advances(p, b.pool)
         && b.pool.cfg == p.cfg
    && |b.leases| == |leases| + 1 && b.leases[..|leases|] == leases
    && Holds(b.pool, b.leases[|leases|], segment) && PinsAdded(p, b.pool, b.leases[|leases|..])
  }

  predicate PinsSlot(leases: seq<Lease>, slot: nat) { exists i :: 0 <= i < |leases| && leases[i].slot == slot }

  /** The leases pin every one of `n` slots. */
  predicate Covers(leases: seq<Lease>, n: nat) { forall slot: nat :: slot < n ==> PinsSlot(leases, slot) }

  lemma SlotSetCovers(p: Pool, leases: seq<Lease>)
    requires LeasesInPool(p, leases)
    ensures |SlotSet(leases)| >= |p.slots| <==> Covers(leases, |p.slots|)
  {
    var all := Below(|p.slots|);
    SubsetSize(SlotSet(leases), all);
    forall slot: nat | slot < |p.slots| ensures slot in SlotSet(leases) <==> PinsSlot(leases, slot) {}
    if Covers(leases, |p.slots|) {
      assert all == SlotSet(leases);
    }
  }

  predicate OwnPinned(p: Pool, leases: seq<Lease>) {
    LeasesInPool(p, leases) && forall i :: 0 <= i < |leases| ==> 0 < p.slots[leases[i].slot].pins
  }

  /** A resolve gives up with batch_too_large exactly when its own pins cover every slot; otherwise with
      pool_exhausted when it found no victim and queue_exhausted when the backend refused the fill. With two
      countable revolutions it finds no victim exactly when every slot is pinned or being filled. */
  predicate FailureReason(b: Progress) {
    && (b.failure == BatchTooLarge <==> Covers(b.leases, |b.pool.slots|))
    && (b.failure == BatchTooLarge || b.failure == PoolExhausted || b.failure == QueueExhausted)
    && (b.failure == QueueExhausted ==> !Exhausted(b.pool))
    && (CountsTwice(|b.pool.slots|) && b.failure != QueueExhausted ==> Exhausted(b.pool))
  }

  /** ... and when it fails: no pin at all, and the reason. */
  predicate NotAcquired(p: Pool, b: Progress, leases: seq<Lease>)
    requires Shaped(p)
  {
    && Inv(b.pool) && Shaped(b.pool) && PendingLinked(b.pool) && Advances(p, b.pool) && SamePins(p, b.pool)
    && b.leases == leases && FailureReason(b)
  }

  lemma ResolveChunkInv(p: Pool, leases: seq<Lease>, segment: Segment, accepted: bool)
    requires Inv(p) && Shaped(p) && PendingLinked(p) && OwnPinned(p, leases) && SegmentOk(p.cfg, segment)
    ensures var b := ResolveChunk(p, leases, segment, accepted);
      if b.failure == Ok then Acquired(p, b, leases, segment) else NotAcquired(p, b, leases)
  {
    hide Inv, Advances, PendingLinked, SamePins, Acquired, Claim, StartFill, AccessAndPin;
    var slot := Lookup(p.slots, segment.chunk);
    if slot != NONE {
      var q := if p.slots[slot].state.Ready?
        then p.(stats := p.stats.(resolveHits := p.stats.resolveHits + 1)) else p.(stats := Coalesced(p.stats));
      StatsKept(p, q);
      AccessStep(p, q, leases, slot, segment);
    } else {
      var q := p.(stats := p.stats.(resolveMisses := p.stats.resolveMisses + 1));
      StatsKept(p, q);
      ResolveMissInv(p, q, leases, segment, accepted);
    }
  }

  lemma StatsKept(p: Pool, q: Pool)
    requires Inv(p) && PendingLinked(p)
    requires q == p.(stats := q.stats)
    requires q.stats == p.stats.(resolveHits := q.stats.resolveHits, resolveMisses := q.stats.resolveMisses,
                                 coalesced := q.stats.coalesced)
    ensures Kept(p, q) && PendingLinked(q)
  {
    StatsInv(p, q);
    KeptSlots(p, q);
  }

  lemma ResolveMissInv(p: Pool, q: Pool, leases: seq<Lease>, segment: Segment, accepted: bool)
    requires Shaped(p) && PendingLinked(p) && OwnPinned(p, leases) && SegmentOk(p.cfg, segment)
    requires q == p.(stats := p.stats.(resolveMisses := p.stats.resolveMisses + 1))
    requires Kept(p, q) && PendingLinked(q) && Lookup(p.slots, segment.chunk) == NONE
    ensures var b := ResolveChunk(p, leases, segment, accepted);
      if b.failure == Ok then Acquired(p, b, leases, segment) else NotAcquired(p, b, leases)
  {
    hide Inv, Advances, PendingLinked, SamePins, Acquired, Claim, StartFill, AccessAndPin, Exhausted, Covers, SlotSet;
    MissAdvances(q, segment.chunk, AdmissionClass.Declared, accepted);
    var (claimed, victim) := Claim(q, AdmissionClass.Declared);
    PendingFrame(q, claimed);
    KeptTransitive(p, q, claimed);
    SlotSetCovers(p, leases);
    if victim != NONE {
      var (filling, started) := StartFill(claimed, victim, segment.chunk, accepted);
      PendingFrame(q, filling);
      KeptTransitive(p, q, filling);
      if started == Ok {
        AccessStep(p, filling, leases, victim, segment);
      } else {
        UnpinnedIsNotCovered(p, claimed, leases, victim);
      }
    }
  }

  lemma UnpinnedIsNotCovered(p: Pool, q: Pool, leases: seq<Lease>, slot: nat)
    requires OwnPinned(p, leases) && SamePins(p, q) && slot < |q.slots| && q.slots[slot].pins == 0
    ensures !Covers(leases, |p.slots|)
  {
    assert !PinsSlot(leases, slot);
  }

  /** What a resolve has after `k` chunks: one pin per chunk so far, each on a live slot that holds it. */
  predicate Progressed(p: Pool, b: Progress, segments: seq<Segment>, k: nat)
    requires Shaped(p) && AllSegmentsOk(p.cfg, segments)
  {
    && Inv(b.pool) && Shaped(b.pool) && PendingLinked(b.pool) && Advances(p, b.pool) && b.pool.cfg == p.cfg
    && PinsAdded(p, b.pool, b.leases) && AllHold(b.pool, b.leases, segments)
    && (if b.failure == Ok then |b.leases| == k else |b.leases| < k && FailureReason(b))
  }

  lemma ProgressedOne(p: Pool, before: Progress, b: Progress, segments: seq<Segment>, k: nat)
    requires Shaped(p) && AllSegmentsOk(p.cfg, segments) && k < |segments|
    requires Progressed(p, before, segments, k) && before.failure == Ok
    requires SegmentOk(p.cfg, segments[k])
    requires if b.failure == Ok then Acquired(before.pool, b, before.leases, segments[k])
        else NotAcquired(before.pool, b, before.leases)
    ensures Progressed(p, b, segments, k + 1)
  {
    hide Inv, Advances, PendingLinked, PinsAdded, SamePins, Holds, SlotSet, AllSegmentsOk, SegmentOk;
    AdvancesTransitive(p, before.pool, b.pool);
    AllHoldStable(before.pool, b.pool, before.leases, segments);
    if b.failure == Ok {
      PinsAddedAfter(p, before.pool, b.pool, before.leases, b.leases[|before.leases|..]);
      assert b.leases == before.leases + b.leases[|before.leases|..];
    } else {
      NoPinsAdded(before.pool, b.pool);
      PinsAddedAfter(p, before.pool, b.pool, before.leases, []);
      assert before.leases + [] == before.leases;
    }
  }

  lemma HoldsIsPinned(p: Pool, leases: seq<Lease>, segments: seq<Segment>)
    requires p.cfg.Valid() && AllSegmentsOk(p.cfg, segments) && AllHold(p, leases, segments)
    ensures OwnPinned(p, leases)
  {
    forall i | 0 <= i < |leases| ensures leases[i].slot < |p.slots| && 0 < p.slots[leases[i].slot].pins {
      assert Holds(p, leases[i], segments[i]);
    }
  }

  lemma {:induction false} ResolveUpToInv(p: Pool, segments: seq<Segment>, answers: seq<bool>, k: nat)
    requires Inv(p) && Shaped(p) && PendingLinked(p) && k <= |segments| && AllSegmentsOk(p.cfg, segments)
    ensures Progressed(p, ResolveUpTo(p, segments, answers, k), segments, k)
  {
    hide Inv, Advances, PendingLinked, PinsAdded, SamePins, Holds, AllSegmentsOk, ResolveChunk, Acquired, NotAcquired;
    if k == 0 {
      KeptSlots(p, p);
      NoPinsAdded(p, p);
    } else {
      var before := ResolveUpTo(p, segments, answers, k - 1);
      ResolveUpToInv(p, segments, answers, k - 1);
      if before.failure == Ok {
        SegmentInSource(p.cfg, segments, k - 1);
        HoldsIsPinned(before.pool, before.leases, segments);
        ResolveChunkInv(before.pool, before.leases, segments[k - 1], Answer(answers, k - 1));
        ProgressedOne(p, before, ResolveUpTo(p, segments, answers, k), segments, k - 1);
      }
    }
  }

  // ----- releasing -----

  /** A slot after pins on it were dropped: nothing else changes, unless it was failed and is now free. */
  predicate Dropped(a: Slot, b: Slot) {
    || (b == a.(pins := b.pins) && b.pins <= a.pins)
    || (a.state.Failed? && b == a.(pins := 0, state := Free, referenced := false, hintUnconsumed := false))
  }

  /** `q` is `p` with the pins of the leases gone. */
  predicate Unpinned(p: Pool, q: Pool, leases: seq<Lease>) {
    && q.cfg == p.cfg && q.requests == p.requests && SameTickets(p, q) && |q.slots| == |p.slots|
    && q.stats == p.stats && q.consumed == p.consumed && q.hand == p.hand && q.inFlight == p.inFlight
    && forall i :: 0 <= i < |p.slots| ==>
         Dropped(p.slots[i], q.slots[i]) && q.slots[i].pins == p.slots[i].pins - Sum(leases, OnSlot(i))
  }

  predicate CanUnpin(p: Pool, leases: seq<Lease>) {
    forall i :: 0 <= i < |p.slots| ==> Sum(leases, OnSlot(i)) <= p.slots[i].pins
  }

  lemma UnpinInv(p: Pool, lease: Lease)
    requires Inv(p) && Shaped(p) && lease.slot < |p.slots| && 0 < p.slots[lease.slot].pins
    ensures var q := Unpin(p, lease.slot);
      Inv(q) && (PendingLinked(p) ==> PendingLinked(q)) && Unpinned(p, q, [lease])
  {
    hide EntriesOk, TicketsOk, LogOk, PendingLinked;
    var q := Unpin(p, lease.slot);
    SlotIsOk(p, lease.slot);
    UsedAtLeastOne(p, lease.slot);
    assert q.slots == p.slots[lease.slot := q.slots[lease.slot]];
    QuietSlotChangeInv(p, lease.slot, q.slots[lease.slot], q);
    forall i | 0 <= i < |p.slots|
      ensures Dropped(p.slots[i], q.slots[i]) && q.slots[i].pins == p.slots[i].pins - Sum([lease], OnSlot(i)) {
      SumOne(lease, OnSlot(i));
    }
  }

  lemma UnpinnedAfter(p: Pool, q: Pool, r: Pool, leases: seq<Lease>, lease: Lease)
    requires Inv(r) && Unpinned(p, q, leases) && Unpinned(q, r, [lease])
    ensures Unpinned(p, r, leases + [lease])
  {
    forall i | 0 <= i < |p.slots|
      ensures Dropped(p.slots[i], r.slots[i]) && r.slots[i].pins == p.slots[i].pins - Sum(leases + [lease], OnSlot(i)) {
      SumAppend(leases, [lease], OnSlot(i));
      assert Dropped(p.slots[i], q.slots[i]) && Dropped(q.slots[i], r.slots[i]);
      SlotIsOk(r, i);
      SumOne(lease, OnSlot(i));
    }
  }

  lemma SumPrefix(leases: seq<Lease>, k: nat, slot: nat)
    requires k <= |leases|
    ensures 0 <= Sum(leases[..k], OnSlot(slot)) <= Sum(leases, OnSlot(slot))
    ensures k < |leases| && leases[k].slot == slot ==> Sum(leases[..k], OnSlot(slot)) < Sum(leases, OnSlot(slot))
  {
    SumBounds(leases[..k], OnSlot(slot));
    SumBounds(leases[k..], OnSlot(slot));
    SumAppend(leases[..k], leases[k..], OnSlot(slot));
    assert leases == leases[..k] + leases[k..];
    if k < |leases| && leases[k].slot == slot {
      assert OnSlot(slot)(leases[k..][0]) == 1;
    }
  }

  lemma {:induction false} UnpinUpToInv(p: Pool, leases: seq<Lease>, k: nat)
    requires Inv(p) && Shaped(p) && LeasesInPool(p, leases) && CanUnpin(p, leases) && k <= |leases|
    ensures var q := UnpinUpTo(p, leases, k);
      Inv(q) && (PendingLinked(p) ==> PendingLinked(q)) && Unpinned(p, q, leases[..k])
  {
    hide Inv, PendingLinked, Unpin;
    if k == 0 {
      assert leases[..k] == [];
    } else {
      UnpinUpToInv(p, leases, k - 1);
      var q := UnpinUpTo(p, leases, k - 1);
      var lease := leases[k - 1];
      SumPrefix(leases, k - 1, lease.slot);
      UnpinInv(q, lease);
      UnpinnedAfter(p, q, Unpin(q, lease.slot), leases[..k - 1], lease);
      assert leases[..k] == leases[..k - 1] + [lease];
    }
  }

  /** Dropping pins one by one drops exactly those pins, and frees exactly the failed slots they were
      the last to hold. */
  lemma UnpinAllInv(p: Pool, leases: seq<Lease>)
    requires Inv(p) && Shaped(p) && LeasesInPool(p, leases) && CanUnpin(p, leases)
    ensures var q := UnpinAll(p, leases);
      Inv(q) && (PendingLinked(p) ==> PendingLinked(q)) && Unpinned(p, q, leases)
  {
    UnpinUpToInv(p, leases, |leases|);
    assert leases[..|leases|] == leases;
  }

  /** A pin taken and dropped in one critical section leaves the slot's state as the section found it. */
  lemma UndoneAdvances(p: Pool, q: Pool, r: Pool, leases: seq<Lease>)
    requires Inv(p) && Advances(p, q) && PinsAdded(p, q, leases) && Unpinned(q, r, leases)
    ensures Advances(p, r) && SamePins(p, r)
  {
    forall i | 0 <= i < |p.slots| ensures Forward(p.slots[i], r.slots[i]) && r.slots[i].pins == p.slots[i].pins {
      assert Forward(p.slots[i], q.slots[i]) && Dropped(q.slots[i], r.slots[i]);
      SlotIsOk(p, i);
    }
    forall t | t in r.requests && t !in p.requests ensures Current(r, t) { assert Current(q, t); }
  }

  // ----- whole calls -----

  lemma CanUndo(p: Pool, q: Pool, leases: seq<Lease>)
    requires Inv(p) && PinsAdded(p, q, leases)
    ensures CanUnpin(q, leases)
  {
    forall i | 0 <= i < |q.slots| ensures Sum(leases, OnSlot(i)) <= q.slots[i].pins { SlotIsOk(p, i); }
  }

  lemma UndoInv(p: Pool, b: Progress, segments: seq<Segment>, k: nat)
    requires Shaped(p) && Inv(p) && AllSegmentsOk(p.cfg, segments) && LeasesInPool(b.pool, b.leases)
    requires Progressed(p, b, segments, k)
    ensures Kept(p, UnpinAll(b.pool, b.leases)) && PendingLinked(UnpinAll(b.pool, b.leases))
  {
    hide Inv, Advances, PendingLinked, PinsAdded, CanUnpin, Unpinned, SamePins, UnpinAll;
    CanUndo(p, b.pool, b.leases);
    UnpinAllInv(b.pool, b.leases);
    UndoneAdvances(p, b.pool, UnpinAll(b.pool, b.leases), b.leases);
  }

  /** Resolve up to its wait is all-or-nothing. A failure leaves every slot with the pins it had; a
      success holds one pin for each chunk of the batch, in request order, each on a live slot that
      holds (or is being filled with) that chunk and cut to the bytes the range asked for. */
  lemma ResolveBeginInv(p: Pool, ranges: seq<ByteRange>, room: nat, answers: seq<bool>)
    requires Inv(p) && Shaped(p) && PendingLinked(p)
    ensures var b := ResolveBegin(p, ranges, room, answers);
      && Inv(b.pool) && PendingLinked(b.pool) && Advances(p, b.pool) && PinsAdded(p, b.pool, b.leases)
      && (b.failure != Ok ==> SamePins(p, b.pool) && b.leases == [])
      && (b.failure == Ok ==> CheckBatch(p.cfg, ranges).status == Ok)
      && (CheckBatch(p.cfg, ranges).status != Ok ==> b.failure == CheckBatch(p.cfg, ranges).status && b.pool == p)
      && (CheckBatch(p.cfg, ranges).status == Ok && room < CheckBatch(p.cfg, ranges).chunks ==>
            b.failure == BatchTooLarge && b.pool == p)
    ensures var b := ResolveBegin(p, ranges, room, answers);
      b.failure == Ok ==>
        |b.leases| == |Batch(p.cfg, ranges)| <= room && AllHold(b.pool, b.leases, Batch(p.cfg, ranges))
  {
    hide Inv, Advances, PendingLinked, PinsAdded, SamePins, UnpinAll, ResolveUpTo, CheckBatch, AllSegmentsOk,
         FailureReason, AllHold;
    var check := CheckBatch(p.cfg, ranges);
    KeptSlots(p, p);
    NoPinsAdded(p, p);
    if check.status == Ok && check.chunks <= room {
      var segments := Batch(p.cfg, ranges);
      ResolveUpToInv(p, segments, answers, check.chunks);
      var b := ResolveUpTo(p, segments, answers, check.chunks);
      if b.failure != Ok {
        UndoInv(p, b, segments, check.chunks);
        NoPinsAdded(p, UnpinAll(b.pool, b.leases));
      }
    }
  }

  /** The chunk at which a resolve failed: the one after those it has leases for. */
  lemma {:induction false} FailedAt(p: Pool, segments: seq<Segment>, answers: seq<bool>, k: nat)
    requires Shaped(p) && k <= |segments| && AllSegmentsOk(p.cfg, segments)
    ensures var b := ResolveUpTo(p, segments, answers, k);
      && (b.failure == Ok ==> |b.leases| == k)
      && (b.failure != Ok ==>
            var j := |b.leases|;
            && j < k && ResolveUpTo(p, segments, answers, j).failure == Ok
            && ResolveUpTo(p, segments, answers, j).leases == b.leases
            && ResolveUpTo(p, segments, answers, j + 1) == b)
  {
    hide ResolveChunk, AllSegmentsOk;
    if k > 0 {
      FailedAt(p, segments, answers, k - 1);
      var before := ResolveUpTo(p, segments, answers, k - 1);
      if before.failure == Ok {
        SegmentInSource(p.cfg, segments, k - 1);
        ChunkLeases(before.pool, before.leases, segments[k - 1], Answer(answers, k - 1));
      }
    }
  }

  lemma ChunkLeases(p: Pool, leases: seq<Lease>, segment: Segment, accepted: bool)
    requires Shaped(p) && LeasesInPool(p, leases) && SegmentOk(p.cfg, segment)
    ensures var b := ResolveChunk(p, leases, segment, accepted);
      if b.failure == Ok then |b.leases| == |leases| + 1 else b.leases == leases
  {
    hide LeaseFor, Claim, StartFill, Lookup, SlotSet;
  }

  /** No slot that a declared claim would come to can be reclaimed: none at all, or, when two revolutions cannot
      be counted, none within the steps that are left of the first. */
  predicate NoneInReach(p: Pool)
    requires Shaped(p)
  {
    if CountsTwice(|p.slots|) then forall i :: 0 <= i < |p.slots| ==> !Takeable(p.slots[i]) && !Evictable(p.slots[i])
    else forall i :: 0 <= i < |p.slots| && Steps(p.hand, i, |p.slots|) < Span(AdmissionClass.Declared, |p.slots|) ==>
        !Takeable(p.slots[i])
  }

  lemma ClaimReach(p: Pool)
    requires Shaped(p)
    ensures Claim(p, AdmissionClass.Declared).1 == NONE <==> NoneInReach(p)
  {
    hide Sweep, FirstFrom;
    if CountsTwice(|p.slots|) {
      SweepChoice(p.slots, p.hand, AdmissionClass.Declared);
    } else {
      SweepCutShort(p.slots, p.hand);
    }
  }

  lemma ChunkFailure(p: Pool, leases: seq<Lease>, segment: Segment, accepted: bool)
    requires Shaped(p) && LeasesInPool(p, leases) && SegmentOk(p.cfg, segment)
    ensures var b := ResolveChunk(p, leases, segment, accepted);
      b.failure != Ok ==>
        && Lookup(p.slots, segment.chunk) == NONE
        && (b.failure != QueueExhausted <==> NoneInReach(p)) && (b.failure == QueueExhausted ==> !accepted)
  {
    hide NoneInReach, Claim, Lookup, LeaseFor, SlotSet;
    var q := p.(stats := p.stats.(resolveMisses := p.stats.resolveMisses + 1));
    ClaimReach(p);
    ClaimReach(q);
    SameReach(p, q);
  }

  lemma SameReach(p: Pool, q: Pool)
    requires Shaped(p) && Shaped(q) && q.slots == p.slots && q.hand == p.hand
    ensures NoneInReach(p) == NoneInReach(q)
  {
  }

  /** Why a valid batch with room for its leases fails before the wait, and with how much acquired: at a chunk
      that is not live, with no victim exactly when none is in reach of the sweep, and otherwise by the
      backend's refusal. */
  lemma ResolveFailure(p: Pool, ranges: seq<ByteRange>, room: nat, answers: seq<bool>)
    requires Inv(p) && Shaped(p) && PendingLinked(p)
    requires CheckBatch(p.cfg, ranges).status == Ok && CheckBatch(p.cfg, ranges).chunks <= room
    requires ResolveBegin(p, ranges, room, answers).failure != Ok
    ensures var segments := Batch(p.cfg, ranges);
      var own := ResolveUpTo(p, segments, answers, |segments|);
      && AllHold(own.pool, own.leases, segments) && |own.leases| < |segments|
      && ResolveBegin(p, ranges, room, answers).failure == own.failure
      && FailureReason(own)
      && var before := ResolveUpTo(p, segments, answers, |own.leases|);
         && before.failure == Ok && before.leases == own.leases
         && Lookup(before.pool.slots, segments[|own.leases|].chunk) == NONE
         && (own.failure != QueueExhausted <==> NoneInReach(before.pool))
         && (own.failure == QueueExhausted ==> !Answer(answers, |own.leases|))
  {
    hide Inv, PendingLinked, NoneInReach, ResolveChunk, FailureReason, AllSegmentsOk, AllHold, Advances, PinsAdded,
         CheckBatch, Batch;
    var segments := Batch(p.cfg, ranges);
    ResolveUpToInv(p, segments, answers, |segments|);
    FailedAt(p, segments, answers, |segments|);
    var own := ResolveUpTo(p, segments, answers, |segments|);
    var j := |own.leases|;
    var before := ResolveUpTo(p, segments, answers, j);
    SegmentInSource(p.cfg, segments, j);
    ChunkFailure(before.pool, before.leases, segments[j], Answer(answers, j));
  }

  function ChunkSet(segments: seq<Segment>): set<nat> { set i | 0 <= i < |segments| :: segments[i].chunk }

  lemma {:induction false} LiveChunks(slots: seq<Slot>, chunks: set<nat>)
    requires forall c :: c in chunks ==> exists i :: 0 <= i < |slots| && slots[i].Live() && slots[i].chunk == c
    ensures |chunks| <= |slots|
  {
    if slots == [] {
      assert chunks == {};
    } else {
      var last := |slots| - 1;
      forall c | c in chunks - {slots[last].chunk}
        ensures exists i :: 0 <= i < last && slots[..last][i].Live() && slots[..last][i].chunk == c {
        var i :| 0 <= i < |slots| && slots[i].Live() && slots[i].chunk == c;
        assert slots[..last][i] == slots[i];
      }
      LiveChunks(slots[..last], chunks - {slots[last].chunk});
    }
  }

  /** A batch that names more distinct chunks than there are slots fails before the wait: a resolve
      never waits on its own pins. */
  lemma TooManyChunks(p: Pool, ranges: seq<ByteRange>, room: nat, answers: seq<bool>)
    requires Inv(p) && Shaped(p) && PendingLinked(p)
    requires CheckBatch(p.cfg, ranges).status == Ok && |ChunkSet(Batch(p.cfg, ranges))| > p.cfg.numSlots
    ensures ResolveBegin(p, ranges, room, answers).failure != Ok
  {
    hide Inv, Advances, PendingLinked, PinsAdded, SamePins, ResolveBegin, CheckBatch, Batch, AllSegmentsOk;
    var b := ResolveBegin(p, ranges, room, answers);
    ResolveBeginInv(p, ranges, room, answers);
    if b.failure == Ok {
      var segments := Batch(p.cfg, ranges);
      forall c | c in ChunkSet(segments)
        ensures exists i :: 0 <= i < |b.pool.slots| && b.pool.slots[i].Live() && b.pool.slots[i].chunk == c {
        var i :| 0 <= i < |segments| && segments[i].chunk == c;
        SegmentInSource(p.cfg, segments, i);
        assert Holds(b.pool, b.leases[i], segments[i]);
      }
      LiveChunks(b.pool.slots, ChunkSet(segments));
    }
  }

  predicate AllSlotsReady(p: Pool, leases: seq<Lease>)
    requires LeasesInPool(p, leases)
  {
    forall i :: 0 <= i < |leases| ==> p.slots[leases[i].slot].state.Ready?
  }

  /** Hits change pins and bits only. */
  predicate SameFills(p: Pool, q: Pool) {
    |q.slots| == |p.slots| && forall i :: 0 <= i < |p.slots| ==>
      q.slots[i].state == p.slots[i].state && q.slots[i].chunk == p.slots[i].chunk
          && q.slots[i].generation == p.slots[i].generation
  }

  lemma HitStep(p: Pool, q: Pool, leases: seq<Lease>, slot: nat, segment: Segment)
    requires Inv(q) && Shaped(q) && PendingLinked(q) && LeasesInPool(q, leases) && SegmentOk(q.cfg, segment)
    requires SameFills(p, q) && AllSlotsReady(q, leases)
    requires slot < |p.slots| && p.slots[slot].state.Ready? && p.slots[slot].chunk == segment.chunk
    ensures var hit := q.(stats := q.stats.(resolveHits := q.stats.resolveHits + 1));
      var b := AccessAndPin(hit, leases, slot, segment);
      Acquired(q, b, leases, segment) && SameFills(p, b.pool) && AllSlotsReady(b.pool, b.leases)
  {
    hide Inv, Advances, PendingLinked, SamePins, Acquired, LeaseFor;
    var hit := q.(stats := q.stats.(resolveHits := q.stats.resolveHits + 1));
    StatsKept(q, hit);
    AccessStep(q, hit, leases, slot, segment);
  }

  lemma {:induction false} HitUpToInv(p: Pool, segments: seq<Segment>, k: nat)
    requires Inv(p) && Shaped(p) && PendingLinked(p) && k <= |segments| && AllSegmentsOk(p.cfg, segments)
    requires AllReady(p, segments)
    ensures var b := HitUpTo(p, segments, k);
      b.failure == Ok && Progressed(p, b, segments, k) && SameFills(p, b.pool) && AllSlotsReady(b.pool, b.leases)
  {
    hide Inv, Advances, PendingLinked, PinsAdded, SamePins, Holds, AllSegmentsOk, AccessAndPin, Acquired, SameFills,
         AllSlotsReady;
    if k == 0 {
      KeptSlots(p, p);
      NoPinsAdded(p, p);
      EmptyFills(p);
    } else {
      var before := HitUpTo(p, segments, k - 1);
      HitUpToInv(p, segments, k - 1);
      SegmentInSource(p.cfg, segments, k - 1);
      HitStep(p, before.pool, before.leases, Lookup(p.slots, segments[k - 1].chunk), segments[k - 1]);
      var b := HitUpTo(p, segments, k);
      AcquiredIsOk(before.pool, b, before.leases, segments[k - 1]);
      ProgressedOne(p, before, b, segments, k - 1);
    }
  }

  lemma EmptyFills(p: Pool)
    ensures SameFills(p, p) && AllSlotsReady(p, [])
  {
  }

  lemma AcquiredIsOk(p: Pool, b: Progress, leases: seq<Lease>, segment: Segment)
    requires Shaped(p) && SegmentOk(p.cfg, segment) && Acquired(p, b, leases, segment)
    ensures b.failure == Ok
  {
  }

  /** try_resolve succeeds exactly when every chunk of a valid batch that fits is ready, and then pins
      each; otherwise it pins nothing. It starts no fill either way. */
  lemma TryResolveInv(p: Pool, ranges: seq<ByteRange>, room: nat)
    requires Inv(p) && Shaped(p) && PendingLinked(p)
    ensures var b := TryResolve(p, ranges, room);
      && Inv(b.pool) && PendingLinked(b.pool) && Advances(p, b.pool) && SameFills(p, b.pool)
      && (b.failure != Ok ==> b.pool == p && b.leases == [])
      && (b.failure == Ok <==>
            CheckBatch(p.cfg, ranges).status == Ok && CheckBatch(p.cfg, ranges).chunks <= room
                && AllReady(p, Batch(p.cfg, ranges)))
      && PinsAdded(p, b.pool, b.leases)
      && (CheckBatch(p.cfg, ranges).status != Ok ==> b.failure == CheckBatch(p.cfg, ranges).status)
      && (CheckBatch(p.cfg, ranges).status == Ok && room < CheckBatch(p.cfg, ranges).chunks ==>
            b.failure == BatchTooLarge)
      && (CheckBatch(p.cfg, ranges).status == Ok && CheckBatch(p.cfg, ranges).chunks <= room ==>
            b.failure == Ok || b.failure == NotResident)
    ensures var b := TryResolve(p, ranges, room);
      b.failure == Ok ==>
        |b.leases| == |Batch(p.cfg, ranges)| && AllHold(b.pool, b.leases, Batch(p.cfg, ranges))
            && AllSlotsReady(b.pool, b.leases)
  {
    hide Inv, Advances, PendingLinked, PinsAdded, SamePins, HitUpTo, CheckBatch, AllSegmentsOk, AllHold, AllReady,
         SameFills, AllSlotsReady, Batch;
    KeptSlots(p, p);
    NoPinsAdded(p, p);
    EmptyFills(p);
    var check := CheckBatch(p.cfg, ranges);
    if check.status == Ok && check.chunks <= room && AllReady(p, Batch(p.cfg, ranges)) {
      HitUpToInv(p, Batch(p.cfg, ranges), check.chunks);
    }
  }

  // ----- after the wait -----

  /** The i-th lease is the first from `k` on whose slot failed, and this is what its fill failed with. */
  predicate FailsFirst(p: Pool, leases: seq<Lease>, k: nat, i: nat, status: Status)
    requires LeasesInPool(p, leases) && i < |leases|
  {
    && p.slots[leases[i].slot].state.Failed? && status == p.slots[leases[i].slot].failure
    && forall j :: k <= j < i ==> !p.slots[leases[j].slot].state.Failed?
  }

  /** The first failed slot, if any, decides what a finished resolve reports, and with what its fill failed. */
  lemma {:induction false} FirstFailureMeaning(p: Pool, leases: seq<Lease>, k: nat)
    requires Inv(p) && LeasesInPool(p, leases) && k <= |leases|
    ensures var status := FirstFailure(p, leases, k);
      && (status == Ok <==> forall i :: k <= i < |leases| ==> !p.slots[leases[i].slot].state.Failed?)
      && status != Pending
      && (status != Ok ==> exists i :: k <= i < |leases| && FailsFirst(p, leases, k, i, status))
    decreases |leases| - k
  {
    if k < |leases| {
      SlotIsOk(p, leases[k].slot);
      if p.slots[leases[k].slot].state.Failed? {
        assert FailsFirst(p, leases, k, k, FirstFailure(p, leases, k));
      } else {
        FirstFailureMeaning(p, leases, k + 1);
        var from, status := k + 1, FirstFailure(p, leases, k + 1);
        if i :| from <= i < |leases| && FailsFirst(p, leases, from, i, status) {
          assert FailsFirst(p, leases, k, i, status);
        }
      }
    }
  }

  /** Once no fill of its pins is in flight, a resolve succeeds exactly when none of them failed, with
      every pinned slot ready; otherwise it drops exactly its own pins. */
  lemma ResolveFinishInv(p: Pool, leases: seq<Lease>)
    requires Inv(p) && Shaped(p) && PendingLinked(p) && LeasesInPool(p, leases) && CanUnpin(p, leases)
    requires !StillFilling(p, leases)
    ensures var b := ResolveFinish(p, leases);
      && Inv(b.pool) && PendingLinked(b.pool) && b.failure != Pending
      && (b.failure == Ok ==> b.pool == p && b.leases == leases && AllSlotsReady(p, leases))
      && (b.failure != Ok ==> b.leases == [] && Unpinned(p, b.pool, leases))
      && (b.failure == Ok <==> forall i :: 0 <= i < |leases| ==> !p.slots[leases[i].slot].state.Failed?)
      && (b.failure != Ok ==> exists i :: 0 <= i < |leases| && FailsFirst(p, leases, 0, i, b.failure))
  {
    FirstFailureMeaning(p, leases, 0);
    if FirstFailure(p, leases, 0) == Ok {
      forall i | 0 <= i < |leases| ensures p.slots[leases[i].slot].state.Ready? {
        SlotIsOk(p, leases[i].slot);
        PinnedIsUsed(p, leases, i);
      }
    } else {
      UnpinAllInv(p, leases);
    }
  }

  lemma PinnedIsUsed(p: Pool, leases: seq<Lease>, i: nat)
    requires Inv(p) && i < |leases| && LeasesInPool(p, leases) && CanUnpin(p, leases)
    ensures 0 < p.slots[leases[i].slot].pins && !p.slots[leases[i].slot].state.Free?
  {
    SumPrefix(leases, i, leases[i].slot);
    SlotIsOk(p, leases[i].slot);
  }
}
