/** What pool_exhausted means (transfer.hpp: "every slot is pinned or filling"). claim_victim counts the steps
    of its two revolutions in 32 bits, so in a pool of 2^31 slots or more it means less; here are the runs
    that show it, and the proof that the slot count alone decides. */
module PoolExhaustion {
  import opened Transfer
  import Sums
  import opened PoolState
  import opened ClockSweep
  import opened ChunkTiling
  import opened PoolModel
  import opened PoolInvariant
  import opened PoolSteps
  import opened PoolResolve
  import P = PoolRuns
  import T = PoolTheorems

  // ----- a pool that overlooks a free slot -----

  const FIRST_BYTE: seq<ByteRange> := [ByteRange(0, 1)]

  const FIRST_SEGMENT: Segment := Segment(0, ByteRange(0, 1))

  lemma FirstByte(cfg: Config)
    requires cfg.Valid()
    ensures SegmentOk(cfg, FIRST_SEGMENT)
    ensures CheckBatch(cfg, FIRST_BYTE) == BatchCheck(Ok, 1)
    ensures Batch(cfg, FIRST_BYTE) == [FIRST_SEGMENT]
  {
    var range := ByteRange(0, 1);
    assert FirstChunk(cfg.slotBytes, range) == LastChunk(cfg.slotBytes, range) == 0;
    assert CheckUpTo(cfg, FIRST_BYTE, 0) == BatchCheck(Ok, 0);
    assert CheckUpTo(cfg, FIRST_BYTE, 1) == BatchCheck(Ok, 1);
    assert SegmentsUpTo(cfg.slotBytes, FIRST_BYTE, 0) == [];
    assert SegmentsUpTo(cfg.slotBytes, FIRST_BYTE, 1) == RangeSegments(cfg.slotBytes, range);
    assert RangeSegments(cfg.slotBytes, range) == [Segment(0, range)];
  }

  /** The first `k` slots hold failed fills that a waiting resolve still pins, the others are free, the hand
      is at `hand`, and there are no tickets. */
  predicate Stuck(p: Pool, k: nat, hand: nat) {
    && Shaped(p) && k <= |p.slots| && p.hand == hand
    && (forall j :: 0 <= j < |p.slots| ==>
          if j < k then p.slots[j].state.Failed? && p.slots[j].pins == 1
          else p.slots[j].state.Free? && p.slots[j].pins == 0)
    && (forall j :: k <= j < |p.slots| ==> p.slots[j].generation == 0)
    && (forall e :: 0 <= e < |p.on| ==> p.on[e] == NONE)
    && (forall r :: 0 <= r < |p.tickets| ==> !p.tickets[r].held)
  }

  /** The sweep takes the free slot under the hand. */
  lemma ClaimAtHand(p: Pool, k: nat)
    requires Stuck(p, k, k) && k < |p.slots| && |p.slots| != 0x8000_0000
    ensures Claim(p, AdmissionClass.Declared) == (p.(hand := if k + 1 == |p.slots| then 0 else k + 1), k)
    ensures Lookup(p.slots, 0) == NONE
  {
    var o := Sweep(p.slots, p.hand, AdmissionClass.Declared);
    assert Ahead(k, 0, |p.slots|) == k;
    assert FirstFrom(p.slots, k, Takeable, 0) == 0;
    assert o == Outcome(k, Ahead(k, 1, |p.slots|), 0);
    assert ClearBits(p.slots, p.hand, 0) == p.slots;
  }

  /** A resolve of the first byte of the source, whose backend answers `accepted`. */
  lemma ResolveFirstByte(p: Pool, accepted: bool)
    requires Shaped(p)
    ensures SegmentOk(p.cfg, FIRST_SEGMENT) && CheckBatch(p.cfg, FIRST_BYTE).status == Ok
    ensures ResolveUpTo(p, Batch(p.cfg, FIRST_BYTE), [accepted], 1) == ResolveChunk(p, [], FIRST_SEGMENT, accepted)
    ensures ResolveBegin(p, FIRST_BYTE, 1, [accepted]) ==
      var b := ResolveChunk(p, [], FIRST_SEGMENT, accepted);
      if b.failure == Ok then b else Progress(UnpinAll(b.pool, b.leases), [], b.failure)
  {
    hide ResolveChunk;
    FirstByte(p.cfg);
    var segments := Batch(p.cfg, FIRST_BYTE);
    assert ResolveUpTo(p, segments, [accepted], 0) == Progress(p, [], Ok);
  }

  /** What the claim of that resolve does to its one chunk. */
  lemma FirstChunkTaken(p: Pool, k: nat, accepted: bool)
    requires Stuck(p, k, k) && k < |p.slots| && |p.slots| != 0x8000_0000 && SegmentOk(p.cfg, FIRST_SEGMENT)
    ensures var b := ResolveChunk(p, [], FIRST_SEGMENT, accepted);
      && b.failure == (if accepted then Ok else QueueExhausted)
      && SameTickets(p, b.pool) && b.pool.hand == (if k + 1 == |p.slots| then 0 else k + 1)
      && b.pool.slots == p.slots[k := b.pool.slots[k]]
      && (if accepted then b.pool.slots[k].state.Filling? && b.pool.slots[k].pins == 1
           && b.pool.slots[k].generation == 1
          else b.leases == [] && b.pool.slots[k].state.Free? && b.pool.slots[k].pins == 0)
      && (accepted ==> b.pool.slots[k].chunk == 0 && b.leases == [LeaseFor(p.cfg, k, 1, FIRST_SEGMENT)])
  {
    hide Claim, Lookup, LeaseFor, SlotSet;
    var q := p.(stats := p.stats.(resolveMisses := p.stats.resolveMisses + 1));
    ClaimAtHand(p, k);
    ClaimAtHand(q, k);
  }

  /** A resolve whose fill then fails leaves one more slot failed and pinned. */
  function Fail(k: nat): seq<P.Event> {
    [P.ResolveBegin(FIRST_BYTE, 1, [true]), P.Deliver(Token(k, 1), FillResult(IoError, 0))]
  }

  lemma ResolveAtHand(p: Pool, k: nat)
    requires Stuck(p, k, k) && k < |p.slots| && |p.slots| != 0x8000_0000
    ensures var b := ResolveBegin(p, FIRST_BYTE, 1, [true]);
      && b.failure == Ok
      && SameTickets(p, b.pool) && b.pool.hand == (if k + 1 == |p.slots| then 0 else k + 1)
      && b.pool.slots == p.slots[k := b.pool.slots[k]]
      && b.pool.slots[k].state.Filling? && b.pool.slots[k].pins == 1 && b.pool.slots[k].generation == 1
      && SegmentOk(p.cfg, FIRST_SEGMENT) && b.pool.slots[k].chunk == 0
      && b.leases == [LeaseFor(p.cfg, k, 1, FIRST_SEGMENT)]
  {
    hide ResolveChunk, ResolveBegin, CheckBatch, Batch, UnpinAll;
    ResolveFirstByte(p, true);
    FirstChunkTaken(p, k, true);
  }

  lemma DeliverError(p: Pool, k: nat)
    requires Shaped(p) && k < |p.slots| && p.slots[k].state.Filling? && 0 < p.slots[k].pins
    requires forall e :: 0 <= e < |p.on| ==> p.on[e] == NONE
    ensures var q := OnComplete(p, Token(k, p.slots[k].generation), FillResult(IoError, 0));
      && SameShape(p, q) && q.hand == p.hand && q.on == p.on && |q.tickets| == |p.tickets|
      && q.slots == p.slots[k := q.slots[k]] && q.slots[k].state.Failed? && q.slots[k].pins == p.slots[k].pins
      && forall r :: 0 <= r < |p.tickets| ==> q.tickets[r].held == p.tickets[r].held
  {
    hide Linked;
    var q := OnComplete(p, Token(k, p.slots[k].generation), FillResult(IoError, 0));
    assert q.on == p.on;
  }

  function FillUp(k: nat): seq<P.Event> { if k == 0 then [] else FillUp(k - 1) + Fail(k - 1) }

  lemma RunTwo(w: P.World, es: seq<P.Event>, a: P.Event, b: P.Event)
    requires Shaped(w.pool)
    ensures P.Run(w, es + [a, b]) == P.Apply(P.Apply(P.Run(w, es), a), b)
  {
    hide P.Apply;
    P.RunMore(w, es, a);
    P.RunMore(w, es + [a], b);
    assert es + [a, b] == es + [a] + [b];
  }

  lemma FailStep(w: P.World, k: nat)
    requires Stuck(w.pool, k, k) && k + 1 < |w.pool.slots| && 0x8000_0000 < |w.pool.slots|
    ensures Stuck(P.Apply(P.Apply(w, Fail(k)[0]), Fail(k)[1]).pool, k + 1, k + 1)
  {
    hide ResolveBegin, OnComplete;
    var w1 := P.Apply(w, Fail(k)[0]);
    ResolveAtHand(w.pool, k);
    DeliverError(w1.pool, k);
  }

  lemma {:induction false} FillUpStuck(cfg: Config, mem: seq<byte>, source: seq<byte>, k: nat)
    requires T.Fits(cfg, mem, source) && 0x8000_0000 < cfg.numSlots && k < cfg.numSlots
    ensures Stuck(T.After(cfg, mem, source, FillUp(k)).pool, k, k)
  {
    hide Stuck, P.Apply;
    if k == 0 {
      CreatedStuck(cfg, mem, source);
    } else {
      FillUpStuck(cfg, mem, source, k - 1);
      RunTwo(P.Create(cfg, mem, source), FillUp(k - 1), Fail(k - 1)[0], Fail(k - 1)[1]);
      StuckSize(T.After(cfg, mem, source, FillUp(k - 1)).pool, k - 1, k - 1);
      T.AfterOk(cfg, mem, source, FillUp(k - 1));
      FailStep(T.After(cfg, mem, source, FillUp(k - 1)), k - 1);
    }
  }

  lemma StuckSize(p: Pool, k: nat, hand: nat)
    requires Stuck(p, k, hand)
    ensures |p.slots| == p.cfg.numSlots
  {
  }

  lemma CreatedStuck(cfg: Config, mem: seq<byte>, source: seq<byte>)
    requires cfg.Valid()
    ensures P.Run(P.Create(cfg, mem, source), []) == P.Create(cfg, mem, source)
    ensures Stuck(P.Create(cfg, mem, source).pool, 0, 0)
  {
  }

  /** A pool with a free slot that a declared claim does not find. */
  predicate Overlooks(p: Pool) {
    && Shaped(p) && Claim(p, AdmissionClass.Declared).1 == NONE && Lookup(p.slots, 0) == NONE
    && (exists j :: 0 <= j < |p.slots| && p.slots[j].state.Free? && p.slots[j].pins == 0)
    && (forall e :: 0 <= e < |p.on| ==> p.on[e] == NONE)
    && (forall r :: 0 <= r < |p.tickets| ==> !p.tickets[r].held)
  }

  /** The run that leads there: with 2^31 slots the empty one, for then the sweep has no step at all;
      with more, all slots but the last fail and stay pinned, and the backend refuses the last. */
  function Overlooking(n: nat): seq<P.Event>
    requires 0 < n
  {
    if n == 0x8000_0000 then [] else FillUp(n - 1) + [P.ResolveBegin(FIRST_BYTE, 1, [false])]
  }

  lemma RefusedAtHand(p: Pool)
    requires var last := |p.slots| - 1; 0x8000_0000 < |p.slots| && Stuck(p, last, last)
    ensures Overlooks(ResolveBegin(p, FIRST_BYTE, 1, [false]).pool)
  {
    hide ResolveBegin;
    RefusedLast(p, |p.slots| - 1);
    LastOverlooked(ResolveBegin(p, FIRST_BYTE, 1, [false]).pool);
  }

  /** The free slot just behind the hand is further than the sweep's steps reach. */
  lemma LastOverlooked(p: Pool)
    requires 0x8000_0000 < |p.slots| && Shaped(p) && p.hand == 0
    requires forall i :: 0 <= i < |p.slots| - 1 ==> p.slots[i].state.Failed? && p.slots[i].pins == 1
    requires p.slots[|p.slots| - 1].state.Free? && p.slots[|p.slots| - 1].pins == 0
    requires (forall e :: 0 <= e < |p.on| ==> p.on[e] == NONE)
    requires forall r :: 0 <= r < |p.tickets| ==> !p.tickets[r].held
    ensures Overlooks(p)
  {
    hide Sweep;
    SweepCutShort(p.slots, 0);
    assert forall i :: 0 <= i < |p.slots| ==> !p.slots[i].Live();
  }

  lemma RefusedLast(p: Pool, last: nat)
    requires last == |p.slots| - 1 && 0x8000_0000 < |p.slots| && Stuck(p, last, last)
    ensures var q := ResolveBegin(p, FIRST_BYTE, 1, [false]).pool;
      && SameTickets(p, q) && q.hand == 0
      && q.slots == p.slots[last := q.slots[last]] && q.slots[last].state.Free? && q.slots[last].pins == 0
  {
    hide ResolveChunk, ResolveBegin, CheckBatch, Batch;
    ResolveFirstByte(p, false);
    FirstChunkTaken(p, last, false);
  }

  lemma OverlookingDoes(cfg: Config, mem: seq<byte>, source: seq<byte>)
    requires T.Fits(cfg, mem, source) && !CountsTwice(cfg.numSlots)
    ensures Overlooks(T.After(cfg, mem, source, Overlooking(cfg.numSlots)).pool)
  {
    hide P.Apply, ResolveBegin, Overlooks;
    if cfg.numSlots == 0x8000_0000 {
      CreatedStuck(cfg, mem, source);
      NoSteps(Create(cfg));
    } else {
      FillUpStuck(cfg, mem, source, cfg.numSlots - 1);
      var es := FillUp(cfg.numSlots - 1);
      P.RunMore(P.Create(cfg, mem, source), es, P.ResolveBegin(FIRST_BYTE, 1, [false]));
      BeginIsApplied(T.After(cfg, mem, source, es), FIRST_BYTE, 1, [false]);
      StuckSize(T.After(cfg, mem, source, es).pool, cfg.numSlots - 1, cfg.numSlots - 1);
      T.AfterOk(cfg, mem, source, es);
      RefusedAtHand(T.After(cfg, mem, source, es).pool);
    }
  }

  lemma BeginIsApplied(w: P.World, ranges: seq<ByteRange>, room: nat, answers: seq<bool>)
    requires Shaped(w.pool)
    ensures P.Apply(w, P.ResolveBegin(ranges, room, answers)).pool == ResolveBegin(w.pool, ranges, room, answers).pool
  {
    hide ResolveBegin;
  }

  lemma NoSteps(p: Pool)
    requires Stuck(p, 0, 0) && |p.slots| == 0x8000_0000
    ensures Overlooks(p)
  {
    assert Span(AdmissionClass.Declared, |p.slots|) == 0;
    assert p.slots[0].state.Free?;
  }

  // ----- what it reports -----

  /** In such a pool a one-byte resolve fails with pool_exhausted, and so does a one-byte declared
      prefetch, while a slot is free. */
  lemma OverlooksReports(p: Pool, accepted: bool)
    requires Inv(p) && Shaped(p) && Overlooks(p)
    ensures ResolveBegin(p, FIRST_BYTE, 1, [accepted]).failure == PoolExhausted
    ensures !ExhaustionIsReal(p, FIRST_BYTE, 1, [accepted])
    ensures HintExhausted(Prefetch(p, FIRST_BYTE, AdmissionClass.Declared, [accepted]))
  {
    hide Inv, Overlooks, ResolveChunk, Exhausted, ResolveBegin, ResolveUpTo, CheckBatch, UnpinAll, Prefetch,
         HintExhausted;
    ResolveFirstByte(p, accepted);
    FirstByte(p.cfg);
    ChunkReports(p, accepted);
    PrefetchReports(p, accepted);
  }

  /** The prefetch was issued a ticket, whose first chunk is pool_exhausted while a slot could be reclaimed. */
  predicate HintExhausted(r: (Pool, PrefetchResult)) {
    && r.1.Issued? && r.1.record == 0 && 0 < |r.0.tickets| && 0 < |r.0.outcomes|
    && r.0.tickets[0].chunks == 1 && r.0.outcomes[0] == PoolExhausted && !Exhausted(r.0)
  }

  lemma ChunkReports(p: Pool, accepted: bool)
    requires Overlooks(p) && SegmentOk(p.cfg, FIRST_SEGMENT)
    ensures var b := ResolveChunk(p, [], FIRST_SEGMENT, accepted);
      b.failure == PoolExhausted && !Exhausted(b.pool)
  {
    hide Claim, Lookup, Exhausted, LeaseFor;
    var q := p.(stats := p.stats.(resolveMisses := p.stats.resolveMisses + 1));
    assert SlotSet([]) == {};
    NoVictim(p);
    NoVictim(q);
    SameClaim(p, q);
  }

  lemma SameClaim(p: Pool, q: Pool)
    requires Shaped(p) && q == p.(stats := q.stats)
    ensures Claim(q, AdmissionClass.Declared).1 == Claim(p, AdmissionClass.Declared).1
    ensures Overlooks(p) ==> Overlooks(q)
  {
    hide Sweep, Lookup;
  }

  /** A claim that finds nothing only ages slots. */
  lemma NoVictim(p: Pool)
    requires Shaped(p)
    ensures Overlooks(p) ==>
      var q := Claim(p, AdmissionClass.Declared).0;
      SameTickets(p, q) && !Exhausted(q)
  {
    hide Sweep, Lookup;
    if Overlooks(p) {
      var q := Claim(p, AdmissionClass.Declared).0;
      var j :| 0 <= j < |p.slots| && p.slots[j].state.Free? && p.slots[j].pins == 0;
      assert q.slots[j] == p.slots[j];
    }
  }

  lemma PrefetchReports(p: Pool, accepted: bool)
    requires Inv(p) && Shaped(p) && Overlooks(p)
    ensures HintExhausted(Prefetch(p, FIRST_BYTE, AdmissionClass.Declared, [accepted]))
  {
    hide Inv, Exhausted, PrefetchChunk, Overlooks, CheckBatch, Batch;
    FirstByte(p.cfg);
    NothingInUse(p);
    assert FirstFreeRecord(p.tickets, 0) == 0;
    var ready := OpenRecord(p, 0, 1);
    var segments := Batch(p.cfg, FIRST_BYTE);
    assert PrefetchUpTo(ready, 0, segments, AdmissionClass.Declared, [accepted], 0) == ready;
    EntryInBlock(p.cfg, 0, 0);
    HintReports(p, ready, accepted);
  }

  lemma HintReports(p: Pool, ready: Pool, accepted: bool)
    requires Overlooks(p) && ready == OpenRecord(p, 0, 1) && 0 < |p.tickets| && 0 < |p.on|
    ensures var q := PrefetchChunk(ready, 0, 0, 0, AdmissionClass.Declared, accepted);
      0 < |q.tickets| && 0 < |q.outcomes| && q.tickets[0].chunks == 1 && q.outcomes[0] == PoolExhausted && !Exhausted(q)
  {
    hide Sweep, Lookup, Exhausted;
    NoVictim(p);
    var q := PrefetchChunk(ready, 0, 0, 0, AdmissionClass.Declared, accepted);
    assert q.slots == Claim(p, AdmissionClass.Declared).0.slots;
    SameExhausted(Claim(p, AdmissionClass.Declared).0, q);
  }

  lemma SameExhausted(p: Pool, q: Pool)
    requires q.slots == p.slots
    ensures Exhausted(p) == Exhausted(q)
  {
  }

  lemma NothingInUse(p: Pool)
    requires Inv(p) && Shaped(p) && Overlooks(p)
    ensures 0 < |p.tickets| && !p.tickets[0].inUse
  {
    hide SlotSide, LogOk, EntriesOk, Claim;
    assert TicketOk(p, 0);
    BlockInside(p.cfg, 0);
    Sums.SumBounds(Block(p.on, p.cfg, 0), LinkedWeight);
  }

  // ----- exactly when it means what it says -----

  /** A declared claim never misses a reclaimable slot, in any state a pool can be in, if and only if two
      revolutions of the pool can be counted in 32 bits. */
  lemma SweepReachesAll(cfg: Config, mem: seq<byte>, source: seq<byte>)
    requires T.Fits(cfg, mem, source)
    ensures CountsTwice(cfg.numSlots) <==>
      forall p: Pool :: Inv(p) && PendingLinked(p) && p.cfg == cfg ==> MissesNothing(p.slots, p.hand)
  {
    if CountsTwice(cfg.numSlots) {
      forall p: Pool | Inv(p) && PendingLinked(p) && p.cfg == cfg ensures MissesNothing(p.slots, p.hand) {
        SweepChoice(p.slots, p.hand, AdmissionClass.Declared);
      }
    } else {
      var p := T.After(cfg, mem, source, Overlooking(cfg.numSlots)).pool;
      OverlookingDoes(cfg, mem, source);
      T.AfterOk(cfg, mem, source, Overlooking(cfg.numSlots));
      OverlooksMisses(p);
    }
  }

  lemma OverlooksMisses(p: Pool)
    requires Overlooks(p)
    ensures !MissesNothing(p.slots, p.hand)
  {
    hide Sweep, Lookup;
    var j :| 0 <= j < |p.slots| && p.slots[j].state.Free? && p.slots[j].pins == 0;
    assert Takeable(p.slots[j]);
  }

  /** If this resolve fails with pool_exhausted, then every slot was pinned or being filled when it did. */
  predicate ExhaustionIsReal(p: Pool, ranges: seq<ByteRange>, room: nat, answers: seq<bool>)
    requires Shaped(p)
  {
    ResolveBegin(p, ranges, room, answers).failure == PoolExhausted ==>
      && CheckBatch(p.cfg, ranges).status == Ok
      && Exhausted(ResolveUpTo(p, Batch(p.cfg, ranges), answers, |Batch(p.cfg, ranges)|).pool)
  }

  /** For every configuration: pool_exhausted always means what its documentation says, over every run and
      every resolve, if and only if the pool has fewer than 2^31 slots. */
  lemma PoolExhaustedIsReal(cfg: Config, mem: seq<byte>, source: seq<byte>)
    requires T.Fits(cfg, mem, source)
    ensures CountsTwice(cfg.numSlots) <==>
      forall es, ranges, room, answers :: ExhaustionIsReal(T.After(cfg, mem, source, es).pool, ranges, room, answers)
  {
    hide ResolveBegin, Exhausted, ExhaustionIsReal, Overlooks;
    if CountsTwice(cfg.numSlots) {
      forall es, ranges, room, answers
        ensures ExhaustionIsReal(T.After(cfg, mem, source, es).pool, ranges, room, answers) {
        T.AfterOk(cfg, mem, source, es);
        RealBelow(T.After(cfg, mem, source, es).pool, ranges, room, answers);
      }
    } else {
      var es := Overlooking(cfg.numSlots);
      OverlookingDoes(cfg, mem, source);
      T.AfterOk(cfg, mem, source, es);
      UnrealAbove(T.After(cfg, mem, source, es).pool);
    }
  }

  lemma RealBelow(p: Pool, ranges: seq<ByteRange>, room: nat, answers: seq<bool>)
    requires Inv(p) && Shaped(p) && PendingLinked(p) && CountsTwice(p.cfg.numSlots)
    ensures ExhaustionIsReal(p, ranges, room, answers)
  {
    hide Inv, PendingLinked, Exhausted, ResolveUpTo, Covers;
    CheckStatus(p.cfg, ranges, |ranges|);
    if ResolveBegin(p, ranges, room, answers).failure == PoolExhausted {
      ResolveFailure(p, ranges, room, answers);
    }
  }

  lemma UnrealAbove(p: Pool)
    requires Inv(p) && Shaped(p) && Overlooks(p)
    ensures !ExhaustionIsReal(p, FIRST_BYTE, 1, [true])
  {
    hide Inv, ExhaustionIsReal, Overlooks, HintExhausted;
    OverlooksReports(p, true);
  }

  /** Validation has its own reasons to fail. */
  lemma {:induction false} CheckStatus(cfg: Config, ranges: seq<ByteRange>, k: nat)
    requires cfg.Valid() && k <= |ranges|
    ensures CheckUpTo(cfg, ranges, k).status in {Ok, EmptyRange, OutOfRange, BatchTooLarge}
  {
    if k > 0 {
      CheckStatus(cfg, ranges, k - 1);
    }
  }
}
