/** What a hint may and may not do to the pool (slot_pool.hpp, prefetch): it is not an access, a speculative
    one never displaces a recent access, and each entry's outcome says what became of its chunk. */
module PoolHints {
  import opened Transfer
  import opened PoolState
  import opened ClockSweep
  import opened ChunkTiling
  import opened PoolModel
  import opened PoolInvariant
  import opened PoolSteps
  import opened PoolResolve

  /** No slot has gained its reference bit; and if `guess`, no slot that had it and was ready has changed. */
  predicate Spared(p: Pool, q: Pool, guess: bool) {
    && |q.slots| == |p.slots|
    && (forall i :: 0 <= i < |p.slots| && q.slots[i].referenced ==> p.slots[i].referenced)
    && (guess ==> forall i :: 0 <= i < |p.slots| && p.slots[i].state.Ready? && p.slots[i].referenced ==>
         q.slots[i] == p.slots[i])
  }

  lemma SparedTransitive(p: Pool, q: Pool, r: Pool, guess: bool)
    requires Spared(p, q, guess) && Spared(q, r, guess)
    ensures Spared(p, r, guess)
  {
  }

  lemma ClaimSpares(p: Pool, admission: AdmissionClass)
    requires Shaped(p)
    ensures Spared(p, Claim(p, admission).0, admission.Speculative?)
    ensures var (q, victim) := Claim(p, admission);
      victim != NONE ==> p.slots[victim].pins == 0 && q.slots[victim].state.Free?
                         && (p.slots[victim].state.Free?
                              || (!q.slots[victim].referenced
                                  && (admission.Speculative? ==> !p.slots[victim].referenced)))
  {
    hide Sweep;
    SweepChoice(p.slots, p.hand, admission);
  }

  lemma PrefetchChunkSpares(p: Pool, r: nat, e: nat, chunk: nat, admission: AdmissionClass, accepted: bool)
    requires Inv(p) && Shaped(p) && r < |p.tickets| && e < |p.on|
    ensures Spared(p, PrefetchChunk(p, r, e, chunk, admission, accepted), admission.Speculative?)
  {
    hide Inv, Claim;
    if Lookup(p.slots, chunk) == NONE {
      ClaimSpares(p, admission);
      var (claimed, victim) := Claim(p, admission);
      if victim != NONE {
        InvSlot(p, victim);
      }
    }
  }

  lemma InvSlot(p: Pool, slot: nat)
    requires Inv(p) && slot < |p.slots|
    ensures SlotOk(p.cfg, p.slots[slot])
  {
  }

  lemma {:induction false} PrefetchUpToSpares(p: Pool, r: nat, segments: seq<Segment>, admission: AdmissionClass,
                                              answers: seq<bool>, k: nat)
    requires Inv(p) && Shaped(p) && r < |p.tickets| && Midway(p, r, 0)
    requires k <= |segments| == p.tickets[r].chunks <= p.cfg.maxBatch && AllSegmentsOk(p.cfg, segments)
    ensures Spared(p, PrefetchUpTo(p, r, segments, admission, answers, k), admission.Speculative?)
  {
    hide Inv, Spared, Midway, PrefetchChunk, AllSegmentsOk, Advances, SamePins;
    if k == 0 {
      SparedSame(p, p, admission.Speculative?);
    } else {
      var q := PrefetchUpTo(p, r, segments, admission, answers, k - 1);
      PrefetchUpToSpares(p, r, segments, admission, answers, k - 1);
      PrefetchUpToInv(p, r, segments, admission, answers, k - 1);
      EntryInBlock(p.cfg, r, k - 1);
      PrefetchChunkSpares(q, r, r * p.cfg.maxBatch + k - 1, segments[k - 1].chunk, admission, Answer(answers, k - 1));
      SparedTransitive(p, q, PrefetchUpTo(p, r, segments, admission, answers, k), admission.Speculative?);
    }
  }

  lemma SparedSame(p: Pool, q: Pool, guess: bool)
    requires q.slots == p.slots
    ensures Spared(p, q, guess)
  {
  }

  /** A prefetch, of whatever class and however long, gives no slot a reference bit; a speculative one
      leaves every ready slot that has the bit exactly as it was. */
  lemma HintsSpare(p: Pool, ranges: seq<ByteRange>, admission: AdmissionClass, answers: seq<bool>)
    requires Inv(p) && Shaped(p) && PendingLinked(p)
    ensures Spared(p, Prefetch(p, ranges, admission, answers).0, admission.Speculative?)
  {
    hide Inv, Spared, PendingLinked, PrefetchUpTo, CheckBatch, Batch, AllSegmentsOk, Midway, Kept;
    var check := CheckBatch(p.cfg, ranges);
    SparedSame(p, p, admission.Speculative?);
    if check.status == Ok {
      var r := FirstFreeRecord(p.tickets, 0);
      if r < |p.tickets| {
        BatchSegments(p.cfg, ranges);
        var ready := OpenRecord(p, r, check.chunks);
        OpenRecordInv(p, r, check.chunks);
        KeptInv(p, ready);
        PrefetchUpToSpares(ready, r, Batch(p.cfg, ranges), admission, answers, check.chunks);
        SparedSame(p, ready, admission.Speculative?);
        SparedTransitive(p, ready, Prefetch(p, ranges, admission, answers).0, admission.Speculative?);
      }
    }
  }

  lemma KeptInv(p: Pool, q: Pool)
    requires Kept(p, q)
    ensures Inv(q)
  {
  }

  /** What the outcome of a hinted chunk says, the moment it is hinted: ok, the chunk was ready already;
      pending, the entry awaits a fill of this very chunk; declined, a guess found nothing that it may
      take; pool_exhausted, a declared hint found no victim; queue_exhausted, the backend was full. */
  lemma OutcomeMeaning(p: Pool, r: nat, e: nat, chunk: nat, admission: AdmissionClass, accepted: bool)
    requires Inv(p) && Shaped(p) && r < |p.tickets| && e < |p.on| && chunk * p.cfg.slotBytes < p.cfg.sourceBytes
    ensures var q := PrefetchChunk(p, r, e, chunk, admission, accepted);
      var held := Lookup(p.slots, chunk);
      var victim := Claim(p, admission).1;
      && (q.outcomes[e] == Ok <==> held != NONE && p.slots[held].state.Ready?)
      && (q.outcomes[e] == Pending <==> q.on[e] != NONE)
      && (q.outcomes[e] == Pending ==> InFlight(q, q.on[e]) && q.slots[q.on[e]].chunk == chunk)
      && (q.outcomes[e] == Pending <==>
           (held != NONE && p.slots[held].state.Filling?) || (held == NONE && victim != NONE && accepted))
      && (q.outcomes[e] == Declined <==> held == NONE && victim == NONE && admission.Speculative?)
      && (q.outcomes[e] == PoolExhausted <==> held == NONE && victim == NONE && admission.Declared?)
      && (q.outcomes[e] == QueueExhausted <==> held == NONE && victim != NONE && !accepted)
      && (q.outcomes[e] == PoolExhausted && CountsTwice(p.cfg.numSlots) ==> Exhausted(q))
  {
    hide Inv, Claim, StartFill, Advances, SamePins;
    if Lookup(p.slots, chunk) == NONE {
      MissAdvances(p, chunk, admission, accepted);
    }
  }

  // ----- accesses -----

  /** Every leased slot has its reference bit, and its prefetch, if it was one, is consumed. */
  predicate Accessed(p: Pool, leases: seq<Lease>) {
    forall i :: 0 <= i < |leases| ==>
      && leases[i].slot < |p.slots| && 0 < p.slots[leases[i].slot].pins
      && p.slots[leases[i].slot].referenced && !p.slots[leases[i].slot].hintUnconsumed
  }

  /** Claims and new fills leave pinned slots alone, bits included. */
  lemma MissKeepsAccessed(p: Pool, chunk: nat, admission: AdmissionClass, accepted: bool, leases: seq<Lease>)
    requires Shaped(p) && Accessed(p, leases)
    ensures var (q, victim) := Claim(p, admission);
      Accessed(q, leases) && (victim != NONE ==> Accessed(StartFill(q, victim, chunk, accepted).0, leases))
  {
    hide Sweep;
    SweepChoice(p.slots, p.hand, admission);
  }

  lemma ResolveChunkAccesses(p: Pool, leases: seq<Lease>, segment: Segment, accepted: bool)
    requires Inv(p) && Shaped(p) && LeasesInPool(p, leases) && SegmentOk(p.cfg, segment) && Accessed(p, leases)
    ensures var b := ResolveChunk(p, leases, segment, accepted); Accessed(b.pool, b.leases)
  {
    hide Inv, Claim, StartFill, LeaseFor, SlotSet;
    var q := p.(stats := p.stats.(resolveMisses := p.stats.resolveMisses + 1));
    MissKeepsAccessed(q, segment.chunk, AdmissionClass.Declared, accepted, leases);
    var slot := Lookup(p.slots, segment.chunk);
    if slot != NONE {
      InvSlot(p, slot);
    } else {
      StatsOnly(p, q);
      MissAdvances(q, segment.chunk, AdmissionClass.Declared, accepted);
    }
  }

  lemma StatsOnly(p: Pool, q: Pool)
    requires Inv(p) && q == p.(stats := p.stats.(resolveMisses := q.stats.resolveMisses))
    ensures Inv(q)
  {
    StatsInv(p, q);
  }

  /** A resolve is an access, of every slot it pins: later chunks of the same call do not undo it. And each
      chunk it looks at is counted once, as a hit, as joining a fill or as a miss. */
  lemma {:induction false} ResolveIsAccess(p: Pool, segments: seq<Segment>, answers: seq<bool>, k: nat)
    requires Inv(p) && Shaped(p) && PendingLinked(p) && k <= |segments| && AllSegmentsOk(p.cfg, segments)
    ensures var b := ResolveUpTo(p, segments, answers, k);
      && Accessed(b.pool, b.leases)
      && Looked(b.pool.stats) - Looked(p.stats) == |b.leases| + if b.failure == Ok then 0 else 1
  {
    hide Inv, PendingLinked, AllSegmentsOk, ResolveChunk, Accessed, Looked, Progressed;
    if k == 0 {
      NoneAccessed(p);
    } else {
      ResolveIsAccess(p, segments, answers, k - 1);
      ResolveUpToInv(p, segments, answers, k - 1);
      var before := ResolveUpTo(p, segments, answers, k - 1);
      if before.failure == Ok {
        ProgressedInv(p, before, segments, k - 1);
        SegmentInSource(p.cfg, segments, k - 1);
        ResolveChunkAccesses(before.pool, before.leases, segments[k - 1], Answer(answers, k - 1));
        ResolveChunkLooks(before.pool, before.leases, segments[k - 1], Answer(answers, k - 1));
      }
    }
  }

  lemma NoneAccessed(p: Pool)
    ensures Accessed(p, [])
  {
  }

  lemma ProgressedInv(p: Pool, b: Progress, segments: seq<Segment>, k: nat)
    requires Shaped(p) && AllSegmentsOk(p.cfg, segments) && Progressed(p, b, segments, k)
    ensures Inv(b.pool)
  {
  }

  function Looked(stats: Stats): int { stats.resolveHits + stats.resolveMisses + stats.coalesced }

  lemma ResolveChunkLooks(p: Pool, leases: seq<Lease>, segment: Segment, accepted: bool)
    requires Shaped(p) && LeasesInPool(p, leases) && SegmentOk(p.cfg, segment)
    ensures var b := ResolveChunk(p, leases, segment, accepted);
      && Looked(b.pool.stats) == Looked(p.stats) + 1
      && |b.leases| == |leases| + if b.failure == Ok then 1 else 0
  {
    hide Sweep, LeaseFor, SlotSet, Lookup;
  }

  /** A delivery is counted as what it was: stale, or a failed fill, or the bytes of its chunk. */
  lemma DeliveryCounted(p: Pool, token: Token, result: FillResult)
    requires Shaped(p)
    ensures var s := OnComplete(p, token, result).stats;
      if !Current(p, token) then s == p.stats.(stale := p.stats.stale + 1)
      else
        var length := ChunkLength(p.cfg, p.slots[token.index].chunk);
        if result == FillResult(Ok, result.bytes) && result.bytes == length
            then s == p.stats.(bytesRead := p.stats.bytesRead + length)
        else s.fillsFailed == p.stats.fillsFailed + 1 && s.bytesRead == p.stats.bytesRead && s.stale == p.stats.stale
  {
    hide Publish, MakeFree;
    if Current(p, token) {
      var status := ClassifyFill(result, ChunkLength(p.cfg, p.slots[token.index].chunk));
      PublishOnly(FinishFill(p, token.index, status, result.bytes), token.index, status);
      if status != Ok {
        FreedOnly(p, token.index, status, result.bytes);
      }
    }
  }

  lemma PublishOnly(p: Pool, slot: nat, status: Status)
    requires Shaped(p)
    ensures Publish(p, slot, status).stats == p.stats
  {
  }

  lemma FreedOnly(p: Pool, slot: nat, status: Status, bytes: nat)
    requires Shaped(p) && slot < |p.slots| && status != Ok
    ensures var s := FinishFill(p, slot, status, bytes).stats;
      s.fillsFailed == p.stats.fillsFailed + 1 && s.bytesRead == p.stats.bytesRead && s.stale == p.stats.stale
  {
  }
}
