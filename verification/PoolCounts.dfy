/** What the statistics of SlotPool count (slot_pool.hpp, counters_), in terms of what callers and the backend can
    see: the outcomes a prefetch recorded, the leases a resolve took, the requests the backend accepted, and the
    slots that are ready. */
module PoolCounts {
  import opened Transfer
  import opened Sums
  import opened PoolState
  import opened ClockSweep
  import opened ChunkTiling
  import opened PoolModel
  import opened PoolInvariant
  import opened PoolSteps
  import opened PoolResolve
  import W = PoolWaits
  import P = PoolRuns
  import T = PoolTheorems
  import A = PoolTallies

  function ReadyWeight(s: Slot): int { if s.state.Ready? then 1 else 0 }

  /** Slots that hold a chunk. */
  function ReadySlots(p: Pool): int { Sum(p.slots, ReadyWeight) }

  // ----- a claim and a fill -----

  /** A claim evicts exactly when its victim was ready, and then one ready slot fewer is left. */
  lemma ClaimCounted(p: Pool, admission: AdmissionClass)
    requires Inv(p)
    ensures var (q, victim) := Claim(p, admission);
      && q.stats == p.stats.(evictions := q.stats.evictions, hintUnconsumed := q.stats.hintUnconsumed)
      && q.stats.evictions - p.stats.evictions == ReadySlots(p) - ReadySlots(q)
      && (q.stats.evictions - p.stats.evictions == 1 <==> victim != NONE && p.slots[victim].state.Ready?)
      && 0 <= q.stats.evictions - p.stats.evictions <= 1
      && q.requests == p.requests
  {
    hide Sweep, ClearBits, OnePerChunk, Counted, HintsConserved, EntriesOk, TicketsOk, LogOk, HandMoved;
    ClaimInv(p, admission);
    var o := Sweep(p.slots, p.hand, admission);
    var aged := ClearBits(p.slots, p.hand, o.cleared);
    ClearedReady(p.slots, p.hand, o.cleared);
    if o.slot != NONE {
      SumUpdate(aged, o.slot, Claim(p, admission).0.slots[o.slot], ReadyWeight);
    }
  }

  lemma ClearedReady(slots: seq<Slot>, hand: nat, cleared: nat)
    requires hand < |slots|
    ensures var r := ClearBits(slots, hand, cleared);
      && Sum(r, ReadyWeight) == Sum(slots, ReadyWeight)
      && forall i :: 0 <= i < |slots| ==> r[i].state == slots[i].state
  {
    SumSame(slots, ClearBits(slots, hand, cleared), ReadyWeight);
  }

  /** Slots in use, with one more that is being named. */
  function UsedWithOneMore(p: Pool): int { Sum(p.slots, UsedWeight) + 1 }

  /** Naming a slot raises the high water to the slots then in use, whatever the backend answers; an accepted fill
      is one request more. */
  lemma StartFillCounted(p: Pool, slot: nat, chunk: nat, accepted: bool)
    requires Inv(p) && slot < |p.slots| && p.slots[slot].state.Free?
    ensures var q := StartFill(p, slot, chunk, accepted).0;
      && q.stats == p.stats.(highWater := Max(p.stats.highWater, UsedWithOneMore(p)))
      && |q.requests| == |p.requests| + (if accepted then 1 else 0)
      && ReadySlots(q) == ReadySlots(p) && q.hand == p.hand
  {
    var q := StartFill(p, slot, chunk, accepted).0;
    assert q.slots == p.slots[slot := q.slots[slot]];
    SumUpdate(p.slots, slot, q.slots[slot], ReadyWeight);
    var token := Token(slot, p.slots[slot].generation + 1);
    assert token !in p.requests;
    if accepted {
      assert q.requests.Keys == p.requests.Keys + {token};
    }
  }

  // ----- prefetch -----

  /** The hint counters moved as these outcomes say. What is pending was admitted, a new request each, or joined a
      fill; what is ok was resident. */
  predicate Hinted(p: Pool, q: Pool, outcomes: seq<Status>) {
    var s, s', asked := p.stats, q.stats, |q.requests| - |p.requests|;
    && s'.hintIssued == s.hintIssued + |outcomes|
    && s'.hintAdmitted == s.hintAdmitted + asked
    && s'.coalesced == s.coalesced + W.Among(outcomes, {Pending}) - asked
    && s'.hintResident == s.hintResident + W.Among(outcomes, {Ok, Pending}) - asked
    && s'.hintDeclined == s.hintDeclined + W.Among(outcomes, {Declined})
    && s'.admissionFailures == s.admissionFailures + W.Among(outcomes, {PoolExhausted, QueueExhausted})
    && s'.evictions - s.evictions == ReadySlots(p) - ReadySlots(q)
    && s'.resolveHits == s.resolveHits && s'.resolveMisses == s.resolveMisses
  }

  lemma AmongOne(outcome: Status, kinds: set<Status>)
    ensures W.Among([outcome], kinds) == if outcome in kinds then 1 else 0
  {
    assert [outcome][..0] == [];
  }

  lemma AmongMore(outcomes: seq<Status>, outcome: Status, kinds: set<Status>)
    ensures W.Among(outcomes + [outcome], kinds) == W.Among(outcomes, kinds) + if outcome in kinds then 1 else 0
  {
    assert (outcomes + [outcome])[..|outcomes|] == outcomes;
  }

  lemma HintedTwice(p: Pool, q: Pool, r: Pool, outcomes: seq<Status>, outcome: Status)
    requires Hinted(p, q, outcomes) && Hinted(q, r, [outcome])
    ensures Hinted(p, r, outcomes + [outcome])
  {
    hide W.Among;
    forall kinds: set<Status>
      ensures W.Among(outcomes + [outcome], kinds) == W.Among(outcomes, kinds) + W.Among([outcome], kinds) {
      AmongMore(outcomes, outcome, kinds);
      AmongOne(outcome, kinds);
    }
  }

  lemma OneOutcome(outcome: Status)
    ensures W.Among([outcome], {Pending}) == if outcome == Pending then 1 else 0
    ensures W.Among([outcome], {Ok, Pending}) == if outcome == Ok || outcome == Pending then 1 else 0
    ensures W.Among([outcome], {Declined}) == if outcome == Declined then 1 else 0
    ensures W.Among([outcome], {PoolExhausted, QueueExhausted})
        == if outcome == PoolExhausted || outcome == QueueExhausted then 1 else 0
  {
    AmongOne(outcome, {Pending});
    AmongOne(outcome, {Ok, Pending});
    AmongOne(outcome, {Declined});
    AmongOne(outcome, {PoolExhausted, QueueExhausted});
  }

  /** One chunk of a prefetch, and only its own entry. */
  lemma ChunkCounted(p: Pool, r: nat, e: nat, chunk: nat, admission: AdmissionClass, accepted: bool)
    requires Inv(p) && Shaped(p) && r < |p.tickets| && e < |p.on| && chunk * p.cfg.slotBytes < p.cfg.sourceBytes
    ensures var q := PrefetchChunk(p, r, e, chunk, admission, accepted);
      && Hinted(p, q, [q.outcomes[e]])
      && (forall f :: 0 <= f < |p.on| && f != e ==> q.outcomes[f] == p.outcomes[f])
  {
    hide Inv, Claim, StartFill, W.Among, ReadySlots, ClaimEffect, Lookup;
    var q := PrefetchChunk(p, r, e, chunk, admission, accepted);
    OneOutcome(q.outcomes[e]);
    if Lookup(p.slots, chunk) == NONE {
      MissHinted(p, r, e, chunk, admission, accepted);
    } else {
      SameSlotsReady(p, q);
    }
  }

  lemma MissHinted(p: Pool, r: nat, e: nat, chunk: nat, admission: AdmissionClass, accepted: bool)
    requires Inv(p) && Shaped(p) && r < |p.tickets| && e < |p.on| && chunk * p.cfg.slotBytes < p.cfg.sourceBytes
    requires Lookup(p.slots, chunk) == NONE
    ensures var q := PrefetchChunk(p, r, e, chunk, admission, accepted);
      && Hinted(p, q, [q.outcomes[e]])
      && (forall f :: 0 <= f < |p.on| && f != e ==> q.outcomes[f] == p.outcomes[f])
  {
    hide Inv, Claim, StartFill, W.Among, ReadySlots, ClaimEffect, Lookup;
    var q := PrefetchChunk(p, r, e, chunk, admission, accepted);
    OneOutcome(q.outcomes[e]);
    MissCounted(p, chunk, admission, accepted);
    var (claimed, victim) := Claim(p, admission);
    if victim == NONE {
      SameSlotsReady(claimed, q);
    } else {
      var filling := StartFill(claimed, victim, chunk, accepted).0;
      if accepted {
        FlagKeepsReady(filling, victim);
        SameSlotsReady(Admit(filling, victim), q);
      } else {
        SameSlotsReady(filling, q);
      }
    }
  }

  lemma SameSlotsReady(p: Pool, q: Pool)
    ensures q.slots == p.slots ==> ReadySlots(q) == ReadySlots(p)
  {
  }

  lemma FlagKeepsReady(p: Pool, slot: nat)
    requires Shaped(p) && slot < |p.slots|
    ensures ReadySlots(Admit(p, slot)) == ReadySlots(p)
  {
    SumUpdate(p.slots, slot, Admit(p, slot).slots[slot], ReadyWeight);
  }

  /** The two steps of a miss, as far as anything counts them. */
  lemma MissCounted(p: Pool, chunk: nat, admission: AdmissionClass, accepted: bool)
    requires Inv(p) && Shaped(p) && Lookup(p.slots, chunk) == NONE && chunk * p.cfg.slotBytes < p.cfg.sourceBytes
    ensures var (q, victim) := Claim(p, admission);
      && q.stats == p.stats.(evictions := q.stats.evictions, hintUnconsumed := q.stats.hintUnconsumed)
      && q.stats.evictions - p.stats.evictions == ReadySlots(p) - ReadySlots(q)
      && q.requests == p.requests
      && (victim != NONE ==>
            var (r, status) := StartFill(q, victim, chunk, accepted);
            && status == (if accepted then Ok else QueueExhausted)
            && r.stats == q.stats.(highWater := Max(q.stats.highWater, UsedWithOneMore(q)))
            && |r.requests| == |q.requests| + (if accepted then 1 else 0) && ReadySlots(r) == ReadySlots(q))
  {
    hide EntriesOk, TicketsOk, LogOk, OnePerChunk, Counted, HintsConserved, SlotsOk, ReadySlots, UsedWithOneMore, Claim,
         StartFill, HandMoved;
    ClaimCounted(p, admission);
    ClaimInv(p, admission);
    var (q, victim) := Claim(p, admission);
    if victim != NONE {
      ClaimKeepsMiss(p, q, victim, chunk);
      StartFillInv(q, victim, chunk, accepted);
      StartFillCounted(q, victim, chunk, accepted);
    }
  }

  lemma {:induction false} PrefetchUpToCounted(p: Pool, r: nat, segments: seq<Segment>, admission: AdmissionClass,
                                               answers: seq<bool>, k: nat)
    requires Inv(p) && Shaped(p) && r < |p.tickets| && Midway(p, r, 0)
    requires k <= |segments| == p.tickets[r].chunks <= p.cfg.maxBatch && AllSegmentsOk(p.cfg, segments)
    ensures var q := PrefetchUpTo(p, r, segments, admission, answers, k);
      && 0 <= r * p.cfg.maxBatch && r * p.cfg.maxBatch + k <= |q.outcomes|
      && Hinted(p, q, q.outcomes[r * p.cfg.maxBatch..r * p.cfg.maxBatch + k])
  {
    hide Inv, Midway, PrefetchChunk, AllSegmentsOk, Hinted, Advances, SamePins;
    BlockInside(p.cfg, r);
    var first := r * p.cfg.maxBatch;
    if k == 0 {
      NothingHinted(p);
      assert p.outcomes[first..first] == [];
    } else {
      var before := PrefetchUpTo(p, r, segments, admission, answers, k - 1);
      PrefetchUpToCounted(p, r, segments, admission, answers, k - 1);
      PrefetchUpToInv(p, r, segments, admission, answers, k - 1);
      SegmentInSource(p.cfg, segments, k - 1);
      EntryInBlock(p.cfg, r, k - 1);
      var e := first + k - 1;
      ChunkCounted(before, r, e, segments[k - 1].chunk, admission, Answer(answers, k - 1));
      var q := PrefetchUpTo(p, r, segments, admission, answers, k);
      assert q.outcomes[first..first + k] == before.outcomes[first..e] + [q.outcomes[e]];
      HintedTwice(p, before, q, before.outcomes[first..e], q.outcomes[e]);
    }
  }

  lemma NothingHinted(p: Pool)
    ensures Hinted(p, p, [])
  {
  }

  /** A prefetch that issues a ticket counts exactly what its outcomes, the requests accepted and the slots left
      ready say; a refused one counts nothing. */
  lemma PrefetchCounted(p: Pool, ranges: seq<ByteRange>, admission: AdmissionClass, answers: seq<bool>)
    requires Inv(p) && Shaped(p) && PendingLinked(p)
    ensures var (q, r) := Prefetch(p, ranges, admission, answers);
      && (r.Refused? ==> q.stats == p.stats)
      && (r.Issued? ==>
            r.record < |q.tickets| && q.tickets[r.record].chunks <= q.cfg.maxBatch
            && Hinted(p, q, W.Entries(q, r.record)))
  {
    hide Inv, PendingLinked, PrefetchUpTo, CheckBatch, Batch, AllSegmentsOk, Midway, Hinted, Advances, SamePins;
    var check := CheckBatch(p.cfg, ranges);
    var r := FirstFreeRecord(p.tickets, 0);
    if check.status == Ok && r < |p.tickets| {
      BatchSegments(p.cfg, ranges);
      var ready := OpenRecord(p, r, check.chunks);
      OpenRecordInv(p, r, check.chunks);
      PrefetchUpToCounted(ready, r, Batch(p.cfg, ranges), admission, answers, check.chunks);
      PrefetchUpToInv(ready, r, Batch(p.cfg, ranges), admission, answers, check.chunks);
      var q := PrefetchUpTo(ready, r, Batch(p.cfg, ranges), admission, answers, check.chunks);
      BlockInside(p.cfg, r);
      OpenedCounts(p, ready, q, W.Entries(q, r));
    }
  }

  lemma OpenedCounts(p: Pool, ready: Pool, q: Pool, outcomes: seq<Status>)
    requires ready == p.(tickets := ready.tickets, ticketsHeld := ready.ticketsHeld) && Hinted(ready, q, outcomes)
    ensures Hinted(p, q, outcomes)
  {
  }

  // ----- resolve -----

  /** Leases whose slots are ready. */
  function ReadyLeases(p: Pool, leases: seq<Lease>): nat
    requires LeasesInPool(p, leases)
  {
    if leases == [] then 0
    else
      var last := |leases| - 1;
      ReadyLeases(p, leases[..last]) + if p.slots[leases[last].slot].state.Ready? then 1 else 0
  }

  lemma {:induction false} ReadyLeasesStay(p: Pool, q: Pool, leases: seq<Lease>)
    requires LeasesInPool(p, leases) && |q.slots| == |p.slots|
    requires forall i :: 0 <= i < |leases| ==>
      (q.slots[leases[i].slot].state.Ready? <==> p.slots[leases[i].slot].state.Ready?)
    ensures LeasesInPool(q, leases) && ReadyLeases(q, leases) == ReadyLeases(p, leases)
  {
    if leases != [] {
      ReadyLeasesStay(p, q, leases[..|leases| - 1]);
    }
  }

  /** The access counters moved as these leases say: a hit for each that was ready, a miss for each new request
      and for a chunk that could not be had. */
  predicate Counts(p: Pool, b: Progress)
    requires LeasesInPool(b.pool, b.leases)
  {
    var s, s' := p.stats, b.pool.stats;
    && s'.resolveHits == s.resolveHits + ReadyLeases(b.pool, b.leases)
    && s'.resolveMisses == s.resolveMisses + |b.pool.requests| - |p.requests| + (if b.failure == Ok then 0 else 1)
    && s'.coalesced == s.coalesced + |b.leases| - ReadyLeases(b.pool, b.leases) - (|b.pool.requests| - |p.requests|)
    && s'.evictions - s.evictions == ReadySlots(p) - ReadySlots(b.pool)
    && s'.hintIssued == s.hintIssued && s'.hintAdmitted == s.hintAdmitted && s'.hintResident == s.hintResident
    && s'.hintDeclined == s.hintDeclined && s'.admissionFailures == s.admissionFailures
  }

  lemma AccessKeepsReady(p: Pool, slot: nat)
    requires Shaped(p) && slot < |p.slots|
    ensures var q := Pin(Access(p, slot), slot);
      && ReadySlots(q) == ReadySlots(p) && q.stats == p.stats && q.requests == p.requests && q.hand == p.hand
      && forall i :: 0 <= i < |p.slots| ==> q.slots[i].state == p.slots[i].state
  {
    var q := Pin(Access(p, slot), slot);
    assert q.slots == p.slots[slot := q.slots[slot]];
    SumUpdate(p.slots, slot, q.slots[slot], ReadyWeight);
  }

  /** One chunk of a resolve. */
  predicate CountsOne(p: Pool, b: Progress, leases: seq<Lease>) {
    var s, s' := p.stats, b.pool.stats;
    var asked := |b.pool.requests| - |p.requests|;
    && |b.leases| == |leases| + (if b.failure == Ok then 1 else 0) && b.leases[..|leases|] == leases
    && LeasesInPool(b.pool, b.leases)
    && var hit := if b.failure == Ok && b.pool.slots[b.leases[|leases|].slot].state.Ready? then 1 else 0;
       && s'.resolveHits == s.resolveHits + hit
       && s'.resolveMisses == s.resolveMisses + asked + (if b.failure == Ok then 0 else 1)
       && s'.coalesced == s.coalesced + (|b.leases| - |leases|) - hit - asked
       && s'.evictions - s.evictions == ReadySlots(p) - ReadySlots(b.pool)
       && s'.hintIssued == s.hintIssued && s'.hintAdmitted == s.hintAdmitted && s'.hintResident == s.hintResident
       && s'.hintDeclined == s.hintDeclined && s'.admissionFailures == s.admissionFailures
  }

  lemma ResolveChunkCounted(p: Pool, leases: seq<Lease>, segment: Segment, accepted: bool)
    requires Inv(p) && Shaped(p) && LeasesInPool(p, leases) && SegmentOk(p.cfg, segment)
    ensures CountsOne(p, ResolveChunk(p, leases, segment, accepted), leases)
  {
    hide Inv, Claim, StartFill, LeaseFor, SlotSet, ReadySlots, Access, Pin, ClaimEffect;
    var slot := Lookup(p.slots, segment.chunk);
    if slot != NONE {
      var counted := if p.slots[slot].state.Ready?
        then p.(stats := p.stats.(resolveHits := p.stats.resolveHits + 1)) else p.(stats := Coalesced(p.stats));
      SameSlotsReady(p, counted);
      AccessKeepsReady(counted, slot);
    } else {
      var q := p.(stats := p.stats.(resolveMisses := p.stats.resolveMisses + 1));
      SameSlotsReady(p, q);
      StatsInvMiss(p, q);
      MissCounted(q, segment.chunk, AdmissionClass.Declared, accepted);
      var (claimed, victim) := Claim(q, AdmissionClass.Declared);
      if victim != NONE && accepted {
        var filling := StartFill(claimed, victim, segment.chunk, accepted).0;
        AccessKeepsReady(filling, victim);
        FilledIsNotReady(claimed, victim, segment.chunk);
      }
    }
  }

  lemma FilledIsNotReady(p: Pool, slot: nat, chunk: nat)
    requires Shaped(p) && slot < |p.slots|
    ensures StartFill(p, slot, chunk, true).0.slots[slot].state.Filling?
  {
  }

  lemma StatsInvMiss(p: Pool, q: Pool)
    requires Inv(p) && q == p.(stats := p.stats.(resolveMisses := q.stats.resolveMisses))
    ensures Inv(q)
  {
    StatsInv(p, q);
  }

  /** Pinned slots are ready or not, as they were. */
  lemma PinnedReady(p: Pool, q: Pool, leases: seq<Lease>)
    requires Advances(p, q) && OwnPinned(p, leases)
    ensures forall i :: 0 <= i < |leases| ==>
      (q.slots[leases[i].slot].state.Ready? <==> p.slots[leases[i].slot].state.Ready?)
  {
    forall i | 0 <= i < |leases|
      ensures q.slots[leases[i].slot].state.Ready? <==> p.slots[leases[i].slot].state.Ready? {
      assert Forward(p.slots[leases[i].slot], q.slots[leases[i].slot]);
    }
  }

  lemma CountsMore(p: Pool, before: Progress, b: Progress)
    requires LeasesInPool(before.pool, before.leases) && Counts(p, before) && before.failure == Ok
    requires CountsOne(before.pool, b, before.leases) && |b.pool.slots| == |before.pool.slots|
    requires forall i :: 0 <= i < |before.leases| ==>
      (b.pool.slots[before.leases[i].slot].state.Ready? <==> before.pool.slots[before.leases[i].slot].state.Ready?)
    ensures LeasesInPool(b.pool, b.leases) && Counts(p, b)
  {
    hide ReadySlots;
    ReadyLeasesStay(before.pool, b.pool, before.leases);
    if b.failure == Ok {
      assert b.leases[..|b.leases| - 1] == before.leases;
    } else {
      assert b.leases == before.leases;
    }
  }

  /** So far as it has come, a resolve counts exactly what its leases, the requests accepted for it and the slots
      left ready say. */
  lemma {:induction false} ResolveCounted(p: Pool, segments: seq<Segment>, answers: seq<bool>, k: nat)
    requires Inv(p) && Shaped(p) && PendingLinked(p) && k <= |segments| && AllSegmentsOk(p.cfg, segments)
    ensures Counts(p, ResolveUpTo(p, segments, answers, k))
  {
    hide Inv, PendingLinked, AllSegmentsOk, ResolveChunk, Counts, CountsOne, Advances, PinsAdded, AllHold,
         FailureReason, Acquired, NotAcquired;
    if k == 0 {
      NothingCounted(p);
    } else {
      ResolveCounted(p, segments, answers, k - 1);
      ResolveUpToInv(p, segments, answers, k - 1);
      var before := ResolveUpTo(p, segments, answers, k - 1);
      if before.failure == Ok {
        SegmentInSource(p.cfg, segments, k - 1);
        HoldsIsPinned(before.pool, before.leases, segments);
        ResolveChunkInv(before.pool, before.leases, segments[k - 1], Answer(answers, k - 1));
        ResolveChunkCounted(before.pool, before.leases, segments[k - 1], Answer(answers, k - 1));
        var b := ResolveUpTo(p, segments, answers, k);
        ChunkAdvances(before.pool, b, before.leases, segments[k - 1]);
        PinnedReady(before.pool, b.pool, before.leases);
        CountsMore(p, before, b);
      }
    }
  }

  lemma ChunkAdvances(p: Pool, b: Progress, leases: seq<Lease>, segment: Segment)
    requires Shaped(p) && SegmentOk(p.cfg, segment)
    requires if b.failure == Ok then Acquired(p, b, leases, segment) else NotAcquired(p, b, leases)
    ensures Advances(p, b.pool) && |b.pool.slots| == |p.slots|
  {
  }

  lemma NothingCounted(p: Pool)
    ensures Counts(p, Progress(p, [], Ok))
  {
  }

  /** A try_resolve that succeeds counts a hit for each of its leases, and nothing else; one that fails, nothing. */
  lemma TryResolveCounted(p: Pool, ranges: seq<ByteRange>, room: nat)
    requires Inv(p) && Shaped(p) && PendingLinked(p)
    ensures var b := TryResolve(p, ranges, room);
      && b.pool.stats == p.stats.(resolveHits := p.stats.resolveHits + |b.leases|)
      && b.pool.hand == p.hand && b.pool.requests == p.requests && ReadySlots(b.pool) == ReadySlots(p)
  {
    hide Inv, PendingLinked, HitUpTo, CheckBatch, Batch, AllReady, ReadySlots;
    var check := CheckBatch(p.cfg, ranges);
    if check.status == Ok && check.chunks <= room && AllReady(p, Batch(p.cfg, ranges)) {
      HitsCounted(p, Batch(p.cfg, ranges), |Batch(p.cfg, ranges)|);
    }
  }

  lemma {:induction false} HitsCounted(p: Pool, segments: seq<Segment>, k: nat)
    requires Shaped(p) && k <= |segments| && AllSegmentsOk(p.cfg, segments) && AllReady(p, segments)
    ensures var b := HitUpTo(p, segments, k);
      && |b.leases| == k && b.pool.stats == p.stats.(resolveHits := p.stats.resolveHits + k)
      && b.pool.hand == p.hand && b.pool.requests == p.requests && ReadySlots(b.pool) == ReadySlots(p)
  {
    hide AccessAndPin, ReadySlots, AllSegmentsOk, AllReady, Lookup;
    if k > 0 {
      HitsCounted(p, segments, k - 1);
      SegmentInSource(p.cfg, segments, k - 1);
      var before := HitUpTo(p, segments, k - 1);
      ReadyHit(p, segments, k - 1);
      HitCounted(before.pool, before.leases, Lookup(p.slots, segments[k - 1].chunk), segments[k - 1]);
    }
  }

  lemma ReadyHit(p: Pool, segments: seq<Segment>, k: nat)
    requires k < |segments| && AllReady(p, segments)
    ensures 0 <= Lookup(p.slots, segments[k].chunk) < |p.slots|
  {
  }

  lemma HitCounted(p: Pool, leases: seq<Lease>, slot: nat, segment: Segment)
    requires Shaped(p) && LeasesInPool(p, leases) && slot < |p.slots| && SegmentOk(p.cfg, segment)
    ensures var hit := p.(stats := p.stats.(resolveHits := p.stats.resolveHits + 1));
      var b := AccessAndPin(hit, leases, slot, segment);
      && |b.leases| == |leases| + 1 && b.pool.stats == p.stats.(resolveHits := p.stats.resolveHits + 1)
      && b.pool.hand == p.hand && b.pool.requests == p.requests && ReadySlots(b.pool) == ReadySlots(p)
  {
    hide LeaseFor, ReadySlots, Access, Pin;
    var hit := p.(stats := p.stats.(resolveHits := p.stats.resolveHits + 1));
    SameSlotsReady(p, hit);
    AccessKeepsReady(hit, slot);
  }

  // ----- the hand -----

  /** The hand moves when a chunk is absent, as the claim's sweep moves it, and stays otherwise. */
  predicate HandFollows(p: Pool, q: Pool, chunk: nat, admission: AdmissionClass)
    requires Shaped(p)
  {
    if Lookup(p.slots, chunk) != NONE then q.hand == p.hand
    else HandMoved(p.hand, q.hand, Claim(p, admission).1, admission, |p.slots|)
  }

  lemma HintedHand(p: Pool, r: nat, e: nat, chunk: nat, admission: AdmissionClass, accepted: bool)
    requires Inv(p) && Shaped(p) && r < |p.tickets| && e < |p.on|
    ensures HandFollows(p, PrefetchChunk(p, r, e, chunk, admission, accepted), chunk, admission)
  {
    hide Inv, Claim, Lookup, HandMoved, ClaimEffect;
    ClaimInv(p, admission);
  }

  lemma ResolvedHand(p: Pool, leases: seq<Lease>, segment: Segment, accepted: bool)
    requires Inv(p) && Shaped(p) && LeasesInPool(p, leases) && SegmentOk(p.cfg, segment)
    ensures HandFollows(p, ResolveChunk(p, leases, segment, accepted).pool, segment.chunk, AdmissionClass.Declared)
  {
    hide Inv, Claim, Lookup, HandMoved, ClaimEffect, LeaseFor, SlotSet, StartFill, Access, Pin;
    var slot := Lookup(p.slots, segment.chunk);
    if slot != NONE {
      var counted := if p.slots[slot].state.Ready?
        then p.(stats := p.stats.(resolveHits := p.stats.resolveHits + 1)) else p.(stats := Coalesced(p.stats));
      PinKeepsHand(counted, slot);
    } else {
      var q := p.(stats := p.stats.(resolveMisses := p.stats.resolveMisses + 1));
      SameVictim(p, q);
      StatsInvMiss(p, q);
      ClaimInv(q, AdmissionClass.Declared);
      var (claimed, victim) := Claim(q, AdmissionClass.Declared);
      if victim != NONE {
        FillKeepsHand(claimed, victim, segment.chunk, accepted);
        PinKeepsHand(StartFill(claimed, victim, segment.chunk, accepted).0, victim);
      }
    }
  }

  lemma PinKeepsHand(p: Pool, slot: nat)
    requires Shaped(p) && slot < |p.slots|
    ensures Pin(Access(p, slot), slot).hand == p.hand
  {
  }

  lemma FillKeepsHand(p: Pool, slot: nat, chunk: nat, accepted: bool)
    requires Shaped(p) && slot < |p.slots|
    ensures StartFill(p, slot, chunk, accepted).0.hand == p.hand
  {
  }

  lemma SameVictim(p: Pool, q: Pool)
    requires Shaped(p) && Shaped(q) && q.slots == p.slots && q.hand == p.hand
    ensures Claim(q, AdmissionClass.Declared).1 == Claim(p, AdmissionClass.Declared).1
  {
    hide Sweep, ClearBits;
  }

  // ----- a new pool -----

  /** A new pool has counted nothing and holds nothing: its slots are free and its records unused. */
  lemma NewPool(cfg: Config)
    requires cfg.Valid()
    ensures var p := Create(cfg);
      && p.stats == Stats(0, 0, 0, 0, 0, 0, 0, 0, 0, 0, 0, 0, 0, 0)
      && p.hand == 0 && p.inFlight == p.pinsTotal == p.ticketsHeld == p.nonFree == 0 && p.requests == map[]
      && (forall i :: 0 <= i < |p.slots| ==> p.slots[i].state.Free? && p.slots[i].pins == p.slots[i].generation == 0)
      && (forall r :: 0 <= r < |p.tickets| ==> !p.tickets[r].inUse && p.tickets[r].generation == 0)
  {
  }

  /** So the first ticket it issues is the first of record 0. */
  lemma FirstTicket(cfg: Config, ranges: seq<ByteRange>, admission: AdmissionClass, answers: seq<bool>)
    requires cfg.Valid() && CheckBatch(cfg, ranges).status == Ok
    ensures Prefetch(Create(cfg), ranges, admission, answers).1 == Issued(0, 1)
  {
    hide CheckBatch, PrefetchUpTo, Batch;
    NewPool(cfg);
  }

  // ----- evictions over runs -----

  /** Dropping pins makes no slot ready and none that was ready otherwise. */
  lemma UnpinnedReady(p: Pool, q: Pool, leases: seq<Lease>)
    requires Unpinned(p, q, leases)
    ensures ReadySlots(q) == ReadySlots(p) && q.stats == p.stats && q.hand == p.hand
  {
    forall i | 0 <= i < |p.slots| ensures ReadyWeight(p.slots[i]) == ReadyWeight(q.slots[i]) {
      assert Dropped(p.slots[i], q.slots[i]);
    }
    SumSame(p.slots, q.slots, ReadyWeight);
  }

  predicate EvictionsMatch(p: Pool, q: Pool) { q.stats.evictions - p.stats.evictions == ReadySlots(p) - ReadySlots(q) }

  lemma ResolveBeginEvicts(p: Pool, ranges: seq<ByteRange>, room: nat, answers: seq<bool>)
    requires Inv(p) && Shaped(p) && PendingLinked(p)
    ensures EvictionsMatch(p, ResolveBegin(p, ranges, room, answers).pool)
  {
    hide Inv, PendingLinked, ResolveUpTo, CheckBatch, Batch, ReadySlots, AllSegmentsOk, UnpinAll, Unpinned, CanUnpin,
         PinsAdded, Advances, AllHold, FailureReason;
    var check := CheckBatch(p.cfg, ranges);
    if check.status == Ok && check.chunks <= room {
      var segments := Batch(p.cfg, ranges);
      ResolveCounted(p, segments, answers, check.chunks);
      ResolveUpToInv(p, segments, answers, check.chunks);
      var b := ResolveUpTo(p, segments, answers, check.chunks);
      CanUndo(p, b.pool, b.leases);
      UnpinAllInv(b.pool, b.leases);
      UnpinnedReady(b.pool, UnpinAll(b.pool, b.leases), b.leases);
    }
  }

  /** Sections that start no fill move neither the statistics nor the hand. */
  predicate Passive(e: P.Event) {
    e.DiscardTicket? || e.ResolveFinish? || e.Release? || e.WontNeed? || e.Write?
  }

  lemma PassiveCounts(w: P.World, e: P.Event)
    requires P.WorldOk(w) && Shaped(w.pool) && Passive(e)
    ensures var q := P.Apply(w, e).pool;
      q.stats == w.pool.stats && q.hand == w.pool.hand && ReadySlots(q) == ReadySlots(w.pool)
  {
    hide P.WorldOk, P.Enabled, ReadySlots, ResolveFinish, Unpin, WontNeed;
    if P.Enabled(w, e) {
      match e
      case ResolveFinish(c) => FinishCounts(w, c);
      case Release(i) => ReleaseCounts(w, i);
      case WontNeed(ranges) => WontNeedReady(w.pool, ranges);
      case DiscardTicket(r) => SameSlotsReady(w.pool, P.Apply(w, e).pool);
      case Write(_, _) =>
    }
  }

  lemma FinishCounts(w: P.World, c: nat)
    requires P.WorldOk(w) && Shaped(w.pool) && P.Enabled(w, P.ResolveFinish(c))
    ensures var q := ResolveFinish(w.pool, w.waiting[c]).pool;
      q.stats == w.pool.stats && q.hand == w.pool.hand && ReadySlots(q) == ReadySlots(w.pool)
  {
    hide Inv, PendingLinked, P.MemoryOk, P.OwedOk, P.LeasesOk, P.PinsMatch, StillFilling, ResolveFinish, Unpinned,
         CanUnpin, AllSlotsReady, FailsFirst, ReadySlots;
    P.CallCanUnpin(w, c);
    ResolveFinishInv(w.pool, w.waiting[c]);
    var b := ResolveFinish(w.pool, w.waiting[c]);
    if b.failure != Ok {
      UnpinnedReady(w.pool, b.pool, w.waiting[c]);
    }
  }

  lemma ReleaseCounts(w: P.World, i: nat)
    requires P.WorldOk(w) && Shaped(w.pool) && P.Enabled(w, P.Release(i))
    ensures var q := Unpin(w.pool, w.held[i].slot);
      q.stats == w.pool.stats && q.hand == w.pool.hand && ReadySlots(q) == ReadySlots(w.pool)
  {
    hide Inv, PendingLinked, P.MemoryOk, P.OwedOk, P.LeasesOk, P.PinsMatch, Unpin, Unpinned, ReadySlots;
    P.HeldIsPinned(w, i);
    UnpinInv(w.pool, w.held[i]);
    UnpinnedReady(w.pool, Unpin(w.pool, w.held[i].slot), [w.held[i]]);
  }

  lemma WontNeedReady(p: Pool, ranges: seq<ByteRange>)
    requires Shaped(p)
    ensures var q := WontNeed(p, ranges);
      q.stats == p.stats && q.hand == p.hand && ReadySlots(q) == ReadySlots(p)
  {
    SumSame(p.slots, WontNeed(p, ranges).slots, ReadyWeight);
  }

  /** A delivery makes a slot ready exactly when it fills one, and moves the hand never. */
  lemma DeliveryReady(w: P.World, e: P.Event)
    requires P.WorldOk(w) && Shaped(w.pool) && e.Deliver? && P.Enabled(w, e)
    ensures var q := P.Apply(w, e).pool;
      && q.stats.evictions == w.pool.stats.evictions && q.hand == w.pool.hand
      && ReadySlots(q) == ReadySlots(w.pool) + (if A.KindOf(w, e) == Some(A.Filled) then 1 else 0)
  {
    hide Inv, PendingLinked, P.LeasesOk, P.MemoryOk, P.PinsMatch, OnComplete, P.Honest;
    DeliveryQuiet(w.pool, e.token, e.result);
    if P.Outstanding(w, e.token) {
      P.OwedRequest(w, e.token);
      P.OnCompleteEnds(w.pool, e.token, e.result);
      var q := OnComplete(w.pool, e.token, e.result);
      assert q.slots == w.pool.slots[e.token.index := q.slots[e.token.index]];
      SumUpdate(w.pool.slots, e.token.index, q.slots[e.token.index], ReadyWeight);
    } else {
      assert !Current(w.pool, e.token);
      StaleSlots(w.pool, e.token, e.result);
    }
  }

  lemma DeliveryQuiet(p: Pool, t: Token, result: FillResult)
    requires Shaped(p)
    ensures OnComplete(p, t, result).stats.evictions == p.stats.evictions && OnComplete(p, t, result).hand == p.hand
  {
    hide Linked, WithPending;
  }

  lemma StaleSlots(p: Pool, t: Token, result: FillResult)
    requires Shaped(p) && !Current(p, t)
    ensures OnComplete(p, t, result).slots == p.slots
  {
  }

  lemma EvictionStep(w: P.World, e: P.Event)
    requires P.WorldOk(w) && Shaped(w.pool)
    ensures var q := P.Apply(w, e).pool;
      q.stats.evictions + ReadySlots(q) == w.pool.stats.evictions + ReadySlots(w.pool)
          + (if A.KindOf(w, e) == Some(A.Filled) then 1 else 0)
  {
    hide Inv, PendingLinked, P.LeasesOk, P.MemoryOk, P.PinsMatch, P.OwedOk, ReadySlots, Prefetch, ResolveBegin,
         TryResolve, ResolveFinish, WontNeed, Unpin, OnComplete, DiscardTicket, P.Honest, CheckBatch;
    if P.Enabled(w, e) {
      match e
      case Prefetch(ranges, admission, answers) => PrefetchEvicts(w.pool, ranges, admission, answers);
      case ResolveBegin(ranges, room, answers) => ResolveBeginEvicts(w.pool, ranges, room, answers);
      case TryResolve(ranges, room) => TryResolveCounted(w.pool, ranges, room);
      case Deliver(_, _) => DeliveryReady(w, e);
      case _ => PassiveCounts(w, e);
    }
  }

  lemma PrefetchEvicts(p: Pool, ranges: seq<ByteRange>, admission: AdmissionClass, answers: seq<bool>)
    requires Inv(p) && Shaped(p) && PendingLinked(p)
    ensures EvictionsMatch(p, Prefetch(p, ranges, admission, answers).0)
  {
    hide Inv, PendingLinked, Prefetch, ReadySlots, CheckBatch, Advances, SamePins;
    PrefetchCounted(p, ranges, admission, answers);
    PrefetchInv(p, ranges, admission, answers);
  }

  lemma {:induction false} EvictionRun(w: P.World, es: seq<P.Event>)
    requires P.WorldOk(w) && Shaped(w.pool)
    ensures var q := P.Run(w, es).pool;
      q.stats.evictions + ReadySlots(q) == w.pool.stats.evictions + ReadySlots(w.pool) + A.Count(w, es, A.Filled)
  {
    hide P.WorldOk, P.Apply, ReadySlots, A.KindOf;
    if es != [] {
      var last := |es| - 1;
      EvictionRun(w, es[..last]);
      P.RunOk(w, es[..last]);
      EvictionStep(P.Run(w, es[..last]), es[last]);
    }
  }

  /** Over every run: each chunk that was filled has been evicted once, or its slot is ready still. */
  lemma FilledOrEvicted(cfg: Config, mem: seq<byte>, source: seq<byte>, es: seq<P.Event>)
    requires T.Fits(cfg, mem, source)
    ensures var w := T.After(cfg, mem, source, es);
      w.pool.stats.evictions + ReadySlots(w.pool) == A.Count(P.Create(cfg, mem, source), es, A.Filled)
  {
    hide P.WorldOk, P.Run, A.Count;
    P.CreateOk(cfg, mem, source);
    EvictionRun(P.Create(cfg, mem, source), es);
    SumBounds(P.Create(cfg, mem, source).pool.slots, ReadyWeight);
  }
}
