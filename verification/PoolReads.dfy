/** What a caller of resolve or try_resolve reads (slot_pool.hpp): range by range, the leases it was given show
    exactly the bytes of the source it asked for. */
module PoolReads {
  import opened Transfer
  import opened Memory
  import opened PoolState
  import opened ChunkTiling
  import opened PoolModel
  import opened PoolInvariant
  import opened PoolSteps
  import opened PoolResolve
  import opened PoolRuns
  import opened PoolProgress
  import T = PoolTheorems

  /** The bytes of the leases, one after the other. */
  function Joined(w: World, leases: seq<Lease>): seq<byte> {
    if leases == [] then [] else Joined(w, leases[..|leases| - 1]) + T.Shown(w, leases[|leases| - 1])
  }

  /** The leases are the ones cut for the segments, in order. */
  predicate CutFor(cfg: Config, leases: seq<Lease>, segments: seq<Segment>)
    requires cfg.Valid() && AllSegmentsOk(cfg, segments)
  {
    |leases| == |segments| && forall i :: 0 <= i < |leases| ==>
      leases[i] == LeaseFor(cfg, leases[i].slot, leases[i].generation, segments[i])
  }

  predicate AllHeld(w: World, leases: seq<Lease>) { forall i :: 0 <= i < |leases| ==> leases[i] in w.held }

  lemma HeldShows(w: World, lease: Lease)
    requires WorldOk(w) && lease in w.held
    ensures lease.source + lease.length <= |w.source|
    ensures T.Shown(w, lease) == w.source[lease.source..lease.source + lease.length]
  {
    hide WorldOk, T.Shown;
    var i :| 0 <= i < |w.held| && w.held[i] == lease;
    T.ShownIsSource(w, i);
  }

  /** Where the first `k` leases of a range end. */
  function EndOf(range: ByteRange, leases: seq<Lease>, k: nat): nat
    requires k <= |leases|
  {
    if k == 0 then range.offset else leases[k - 1].source + leases[k - 1].length
  }

  lemma RangeOk(cfg: Config, range: ByteRange)
    requires cfg.Valid() && ValidateRange(range, cfg.sourceBytes) == Ok
    ensures AllSegmentsOk(cfg, RangeSegments(cfg.slotBytes, range))
  {
    RangeSegmentsOk(cfg, range);
  }

  /** The k-th lease of a range begins where those before it end. */
  lemma Continues(cfg: Config, range: ByteRange, leases: seq<Lease>, k: nat)
    requires cfg.Valid() && ValidateRange(range, cfg.sourceBytes) == Ok && k < |leases|
    requires AllSegmentsOk(cfg, RangeSegments(cfg.slotBytes, range))
    requires CutFor(cfg, leases, RangeSegments(cfg.slotBytes, range))
    ensures leases[k].source == EndOf(range, leases, k) && range.offset <= EndOf(range, leases, k)
    ensures k == |leases| - 1 ==> EndOf(range, leases, k + 1) == range.offset + range.length
  {
    hide RangeSegments, LeaseFor;
    RangeTiling(cfg, range, k, leases[k].slot, leases[k].generation, leases[k].slot, leases[k].generation);
    if k > 0 {
      RangeTiling(cfg, range, k - 1, leases[k - 1].slot, leases[k - 1].generation, leases[k].slot,
                  leases[k].generation);
      Continues(cfg, range, leases, k - 1);
    }
  }

  lemma {:induction false} JoinedUpTo(w: World, range: ByteRange, leases: seq<Lease>, k: nat)
    requires WorldOk(w) && Shaped(w.pool) && ValidateRange(range, w.pool.cfg.sourceBytes) == Ok && k <= |leases|
    requires AllSegmentsOk(w.pool.cfg, RangeSegments(w.pool.cfg.slotBytes, range))
    requires CutFor(w.pool.cfg, leases, RangeSegments(w.pool.cfg.slotBytes, range)) && AllHeld(w, leases)
    ensures range.offset <= EndOf(range, leases, k) <= |w.source|
    ensures Joined(w, leases[..k]) == w.source[range.offset..EndOf(range, leases, k)]
  {
    hide WorldOk, T.Shown, RangeSegments, CutFor, AllSegmentsOk;
    if k == 0 {
      SourceSize(w);
    } else {
      JoinedUpTo(w, range, leases, k - 1);
      Continues(w.pool.cfg, range, leases, k - 1);
      HeldShows(w, leases[k - 1]);
      assert leases[..k][..k - 1] == leases[..k - 1];
    }
  }

  lemma SourceSize(w: World)
    requires WorldOk(w)
    ensures |w.source| == w.pool.cfg.sourceBytes
  {
  }

  lemma RangeShows(w: World, range: ByteRange, leases: seq<Lease>)
    requires WorldOk(w) && Shaped(w.pool) && ValidateRange(range, w.pool.cfg.sourceBytes) == Ok
    requires AllSegmentsOk(w.pool.cfg, RangeSegments(w.pool.cfg.slotBytes, range))
    requires CutFor(w.pool.cfg, leases, RangeSegments(w.pool.cfg.slotBytes, range)) && AllHeld(w, leases)
    ensures Joined(w, leases) == Part(w.source, range.offset, range.length)
  {
    hide WorldOk, CutFor, AllSegmentsOk;
    SomeSegment(w.pool.cfg, range, leases);
    JoinedUpTo(w, range, leases, |leases|);
    assert leases[..|leases|] == leases;
    Continues(w.pool.cfg, range, leases, |leases| - 1);
  }

  lemma SomeSegment(cfg: Config, range: ByteRange, leases: seq<Lease>)
    requires cfg.Valid() && ValidateRange(range, cfg.sourceBytes) == Ok
    requires AllSegmentsOk(cfg, RangeSegments(cfg.slotBytes, range))
    requires CutFor(cfg, leases, RangeSegments(cfg.slotBytes, range))
    ensures 0 < |leases|
  {
    ChunkBounds(cfg.slotBytes, range, 0);
  }

  // ----- whole batches -----

  /** How many chunks the first `j` ranges of a batch name. */
  function ChunksBefore(cfg: Config, ranges: seq<ByteRange>, j: nat): nat
    requires cfg.Valid() && j <= |ranges| && Inside(cfg, ranges, |ranges|)
  {
    |SegmentsUpTo(cfg.slotBytes, ranges, j)|
  }

  lemma {:induction false} SegmentsPrefix(cfg: Config, ranges: seq<ByteRange>, j: nat, k: nat)
    requires cfg.Valid() && j <= k <= |ranges| && Inside(cfg, ranges, |ranges|)
    ensures ChunksBefore(cfg, ranges, j) <= ChunksBefore(cfg, ranges, k)
    ensures SegmentsUpTo(cfg.slotBytes, ranges, k)[..ChunksBefore(cfg, ranges, j)]
        == SegmentsUpTo(cfg.slotBytes, ranges, j)
  {
    hide RangeSegments;
    if j < k {
      SegmentsPrefix(cfg, ranges, j, k - 1);
    }
  }

  /** The leases show the batch: those of each range, joined, are the range's bytes of the source. */
  predicate Shows(w: World, ranges: seq<ByteRange>, leases: seq<Lease>)
    requires w.pool.cfg.Valid()
  {
    && Inside(w.pool.cfg, ranges, |ranges|)
    && forall j :: 0 <= j < |ranges| ==> RangeShown(w, ranges, leases, j)
  }

  predicate RangeShown(w: World, ranges: seq<ByteRange>, leases: seq<Lease>, j: nat)
    requires w.pool.cfg.Valid() && j < |ranges| && Inside(w.pool.cfg, ranges, |ranges|)
  {
    var from, to := ChunksBefore(w.pool.cfg, ranges, j), ChunksBefore(w.pool.cfg, ranges, j + 1);
    from < to <= |leases| && Joined(w, leases[from..to]) == Part(w.source, ranges[j].offset, ranges[j].length)
  }

  lemma BatchShows(w: World, ranges: seq<ByteRange>, leases: seq<Lease>)
    requires WorldOk(w) && Shaped(w.pool) && CheckBatch(w.pool.cfg, ranges).status == Ok
    requires CutFor(w.pool.cfg, leases, Batch(w.pool.cfg, ranges)) && AllHeld(w, leases)
    ensures Shows(w, ranges, leases)
  {
    hide WorldOk, RangeShown, CheckBatch, CutFor;
    BatchSegments(w.pool.cfg, ranges);
    forall j | 0 <= j < |ranges| ensures RangeShown(w, ranges, leases, j) { OneRangeShown(w, ranges, leases, j); }
  }

  lemma OneRangeShown(w: World, ranges: seq<ByteRange>, leases: seq<Lease>, j: nat)
    requires WorldOk(w) && Shaped(w.pool) && CheckBatch(w.pool.cfg, ranges).status == Ok
    requires Inside(w.pool.cfg, ranges, |ranges|)
    requires CutFor(w.pool.cfg, leases, Batch(w.pool.cfg, ranges)) && AllHeld(w, leases) && j < |ranges|
    ensures RangeShown(w, ranges, leases, j)
  {
    hide WorldOk, CheckBatch, LeaseFor, RangeSegments, Joined;
    var cfg := w.pool.cfg;
    var from, to := ChunksBefore(cfg, ranges, j), ChunksBefore(cfg, ranges, j + 1);
    SegmentsPrefix(cfg, ranges, j + 1, |ranges|);
    RangeOk(cfg, ranges[j]);
    var segments := Batch(cfg, ranges);
    assert segments[..to] == SegmentsUpTo(cfg.slotBytes, ranges, j) + RangeSegments(cfg.slotBytes, ranges[j]);
    forall i | 0 <= i < to - from ensures segments[from + i] == RangeSegments(cfg.slotBytes, ranges[j])[i] {
      assert segments[..to][from + i] == segments[from + i];
    }
    var own := leases[from..to];
    forall i | 0 <= i < |own| ensures own[i] in w.held { assert own[i] == leases[from + i]; }
    SomeSegment(cfg, ranges[j], own);
    RangeShows(w, ranges[j], own);
  }

  // ----- the two calls -----

  lemma HoldsIsCut(p: Pool, leases: seq<Lease>, segments: seq<Segment>)
    requires p.cfg.Valid() && AllSegmentsOk(p.cfg, segments) && AllHold(p, leases, segments) && |leases| == |segments|
    ensures CutFor(p.cfg, leases, segments)
  {
    forall i | 0 <= i < |leases|
      ensures leases[i] == LeaseFor(p.cfg, leases[i].slot, leases[i].generation, segments[i]) {
      assert Holds(p, leases[i], segments[i]);
    }
  }

  lemma ConfigFixed(w: World, es: seq<Event>)
    requires Shaped(w.pool)
    ensures Run(w, es).pool.cfg == w.pool.cfg
  {
  }

  /** A try_resolve that succeeds: at once, and in every later world in which its leases are still held, they
      show the batch. */
  lemma TryResolveShows(w: World, ranges: seq<ByteRange>, room: nat, more: seq<Event>)
    requires WorldOk(w) && Shaped(w.pool) && PoolModel.TryResolve(w.pool, ranges, room).failure == Ok
    ensures var leases := PoolModel.TryResolve(w.pool, ranges, room).leases;
      var w' := Apply(w, TryResolve(ranges, room));
      && AllHeld(w', leases) && Shows(w', ranges, leases)
      && (AllHeld(Run(w', more), leases) ==> Shows(Run(w', more), ranges, leases))
  {
    hide WorldOk, PoolModel.TryResolve, Shows, CheckBatch, AllSegmentsOk, Advances, PinsAdded, SameFills,
         AllSlotsReady, AllHold, Inv, PendingLinked;
    var b := PoolModel.TryResolve(w.pool, ranges, room);
    var w' := Apply(w, TryResolve(ranges, room));
    WorldInv(w);
    TryResolveInv(w.pool, ranges, room);
    HoldsIsCut(b.pool, b.leases, Batch(w.pool.cfg, ranges));
    EventOk(w, TryResolve(ranges, room));
    RunOk(w', more);
    ConfigFixed(w', more);
    TakenIsHeld(w, ranges, room);
    BatchShows(w', ranges, b.leases);
    if AllHeld(Run(w', more), b.leases) {
      BatchShows(Run(w', more), ranges, b.leases);
    }
  }

  lemma TakenIsHeld(w: World, ranges: seq<ByteRange>, room: nat)
    requires Shaped(w.pool)
    ensures AllHeld(Apply(w, TryResolve(ranges, room)), PoolModel.TryResolve(w.pool, ranges, room).leases)
    ensures Apply(w, TryResolve(ranges, room)).pool.cfg == w.pool.cfg
  {
    hide PoolModel.TryResolve;
  }

  /** A waiting call keeps its leases until it returns. */
  lemma {:induction false} CallKeeps(w: World, es: seq<Event>, c: nat)
    requires WorldOk(w) && Shaped(w.pool) && c < |w.waiting| && ResolveFinish(c) !in es
    ensures c < |Run(w, es).waiting| && Run(w, es).waiting[c] == w.waiting[c]
  {
    hide WorldOk, Apply, Awaited;
    if es != [] {
      var last := |es| - 1;
      assert es[last] in es;
      CallKeeps(w, es[..last], c);
      RunOk(w, es[..last]);
      WaitShrinks(Run(w, es[..last]), es[last], c);
    }
  }

  /** A resolve that begins with all its pins and whose fills all succeed: when it returns, and in every later
      world in which its leases are still held, they show the batch, whatever ran while it waited. */
  lemma ResolveShows(w: World, ranges: seq<ByteRange>, room: nat, answers: seq<bool>, during: seq<Event>,
                     more: seq<Event>)
    requires WorldOk(w) && Shaped(w.pool) && PoolModel.ResolveBegin(w.pool, ranges, room, answers).failure == Ok
    requires ResolveFinish(|w.waiting|) !in during
    requires var w1 := Run(Apply(w, ResolveBegin(ranges, room, answers)), during);
      Enabled(w1, ResolveFinish(|w.waiting|)) && FirstFailure(w1.pool, w1.waiting[|w.waiting|], 0) == Ok
    ensures var leases := PoolModel.ResolveBegin(w.pool, ranges, room, answers).leases;
      var w2 := Apply(Run(Apply(w, ResolveBegin(ranges, room, answers)), during), ResolveFinish(|w.waiting|));
      && AllHeld(w2, leases) && Shows(w2, ranges, leases)
      && (AllHeld(Run(w2, more), leases) ==> Shows(Run(w2, more), ranges, leases))
  {
    hide WorldOk, PoolModel.ResolveBegin, Shows, CheckBatch, AllSegmentsOk, Advances, PinsAdded, AllHold, SamePins,
         Inv, PendingLinked,
         PoolModel.ResolveFinish, StillFilling, FirstFailure;
    var c := |w.waiting|;
    var b := PoolModel.ResolveBegin(w.pool, ranges, room, answers);
    var w0 := Apply(w, ResolveBegin(ranges, room, answers));
    WorldInv(w);
    ResolveBeginInv(w.pool, ranges, room, answers);
    HoldsIsCut(b.pool, b.leases, Batch(w.pool.cfg, ranges));
    EventOk(w, ResolveBegin(ranges, room, answers));
    CallKeeps(w0, during, c);
    RunOk(w0, during);
    ConfigFixed(w0, during);
    var w1 := Run(w0, during);
    EventOk(w1, ResolveFinish(c));
    FinishedIsHeld(w1, c);
    var w2 := Apply(w1, ResolveFinish(c));
    RunOk(w2, more);
    ConfigFixed(w2, more);
    BatchShows(w2, ranges, b.leases);
    if AllHeld(Run(w2, more), b.leases) {
      BatchShows(Run(w2, more), ranges, b.leases);
    }
  }

  lemma FinishedIsHeld(w: World, c: nat)
    requires Shaped(w.pool) && Enabled(w, ResolveFinish(c)) && FirstFailure(w.pool, w.waiting[c], 0) == Ok
    ensures AllHeld(Apply(w, ResolveFinish(c)), w.waiting[c])
    ensures Apply(w, ResolveFinish(c)).pool.cfg == w.pool.cfg
  {
    hide UnpinAll, FirstFailure;
  }
}
