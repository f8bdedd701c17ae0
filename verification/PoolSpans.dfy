/** What a failed resolve or try_resolve leaves in the caller's span (slot_pool.hpp). Its comment says that any
    failure leaves no lease held; this is exactly when that is so, and two inputs for which it is not. */
module PoolSpans {
  import opened Transfer
  import opened PoolState
  import opened ChunkTiling
  import opened SlotPoolFacts
  import M = PoolModel
  import I = PoolInvariant
  import R = PoolResolve
  import P = PoolRuns
  import T = PoolTheorems
  import E = PoolExhaustion

  // ----- whole calls -----

  /** Why a call does not proceed. */
  function Refusal(cfg: Config, ranges: seq<ByteRange>): Status
    requires 0 < cfg.slotBytes
  {
    if CheckBatch(cfg, ranges).status != Ok then CheckBatch(cfg, ranges).status else BatchTooLarge
  }

  /** A resolve returns `status` and leaves `after` in its span: refused, failed before its wait, or done after
      it, `during` being what ran while it waited. `w` is the world in which it takes the lock, when the leases
      it is about to overwrite have been released. */
  predicate ResolveReturns(w: P.World, span: seq<Handle>, ranges: seq<ByteRange>, answers: seq<bool>,
                           during: seq<P.Event>, status: Status, after: seq<Handle>)
    requires M.Shaped(w.pool)
  {
    if !Proceeds(w.pool.cfg, ranges, |span|) then status == Refusal(w.pool.cfg, ranges) && after == span
    else
      var b := M.ResolveBegin(w.pool, ranges, |span|, answers);
      if b.failure != Ok then status == b.failure && after == SpanAfter(w.pool.cfg, span, ranges, [])
      else
        var waited := P.Run(P.Apply(w, P.ResolveBegin(ranges, |span|, answers)), during);
        var call := |w.waiting|;
        && P.Enabled(waited, P.ResolveFinish(call))
        && var f := M.ResolveFinish(waited.pool, waited.waiting[call]);
           && |f.leases| <= CheckBatch(w.pool.cfg, ranges).chunks
           && status == f.failure && after == SpanAfter(w.pool.cfg, span, ranges, f.leases)
  }

  predicate TryReturns(w: P.World, span: seq<Handle>, ranges: seq<ByteRange>, status: Status, after: seq<Handle>)
    requires M.Shaped(w.pool)
  {
    if !Proceeds(w.pool.cfg, ranges, |span|) then status == Refusal(w.pool.cfg, ranges) && after == span
    else
      var b := M.TryResolve(w.pool, ranges, |span|);
      && |b.leases| <= CheckBatch(w.pool.cfg, ranges).chunks
      && status == b.failure && after == SpanAfter(w.pool.cfg, span, ranges, b.leases)
  }

  /** After a failed call, in any world and whatever ran while it waited: no entry of the span holds a lease if
      and only if none did before, or the call proceeded and no entry past the ones it would have overwritten
      did. The entries it would have overwritten are empty whenever it proceeded. */
  lemma FailedCallSpan(w: P.World, span: seq<Handle>, ranges: seq<ByteRange>, answers: seq<bool>,
                       during: seq<P.Event>, status: Status, after: seq<Handle>)
    requires M.Shaped(w.pool) && status != Ok
    requires ResolveReturns(w, span, ranges, answers, during, status, after)
        || TryReturns(w, span, ranges, status, after)
    ensures |after| == |span| && (NoneHeld(after) <==> Emptied(w.pool.cfg, span, ranges))
    ensures Proceeds(w.pool.cfg, ranges, |span|) ==>
      var chunks := CheckBatch(w.pool.cfg, ranges).chunks;
      NoneHeld(after[..chunks]) && after[chunks..] == span[chunks..]
  {
    hide CheckBatch, P.Apply, P.Run, P.Enabled, M.ResolveBegin, M.ResolveFinish, M.TryResolve, NoneHeld, Emptied;
    FailedSpan(w.pool.cfg, span, ranges);
  }

  // ----- a pool in which a lease is held -----

  /** Two bytes of source, one slot of one byte. */
  const TINY: Config := Config(2, 1, 1, 1, 1)

  const TINY_LEASE: Lease := Lease(0, 1, 0, 0, 1)

  /** A resolve of the first byte, its fill, and its return. */
  function HoldFirst(source: seq<byte>): seq<P.Event>
    requires |source| == 2
  {
    [P.ResolveBegin(E.FIRST_BYTE, 1, [true]), P.Write(Token(0, 1), source[..1]),
     P.Deliver(Token(0, 1), FillResult(Ok, 1)),
     P.ResolveFinish(0)]
  }

  predicate TinyFits(mem: seq<byte>, source: seq<byte>) { |mem| == 1 && |source| == 2 }

  lemma TinyIsValid(mem: seq<byte>, source: seq<byte>)
    requires TinyFits(mem, source)
    ensures T.Fits(TINY, mem, source)
  {
  }

  /** The call waits for its one fill, which the backend has accepted. */
  predicate TinyWaits(w: P.World) {
    && M.Shaped(w.pool) && w.pool.cfg == TINY && w.held == [] && w.waiting == [[TINY_LEASE]] && w.delivered == {}
    && w.pool.slots[0].state.Filling? && w.pool.slots[0].pins == 1 && w.pool.slots[0].generation == 1
         && w.pool.slots[0].chunk == 0
  }

  lemma TinyBegins(mem: seq<byte>, source: seq<byte>)
    requires TinyFits(mem, source)
    ensures TINY.Valid() && TinyWaits(P.Apply(P.Create(TINY, mem, source), P.ResolveBegin(E.FIRST_BYTE, 1, [true])))
  {
    hide M.ResolveBegin, LeaseFor, E.Stuck, M.Create;
    TinyIsValid(mem, source);
    E.CreatedStuck(TINY, mem, source);
    var p := M.Create(TINY);
    TinySlots();
    E.ResolveAtHand(p, 0);
    TinyCut(p.cfg);
  }

  lemma TinySlots()
    ensures TINY.Valid() && M.Create(TINY).cfg == TINY && |M.Create(TINY).slots| == 1
  {
  }

  lemma TinyCut(cfg: Config)
    requires cfg == TINY && cfg.Valid() && SegmentOk(cfg, E.FIRST_SEGMENT)
    ensures LeaseFor(cfg, 0, 1, E.FIRST_SEGMENT) == TINY_LEASE
  {
  }

  /** What the backend owes the waiting call. */
  lemma TinyRequest(w: P.World)
    requires P.WorldOk(w) && TinyWaits(w)
    ensures P.Outstanding(w, Token(0, 1)) && w.pool.requests[Token(0, 1)] == Request(0, 0, 1, Token(0, 1))
  {
    hide I.Inv, P.PinsMatch, P.LeasesOk, P.MemoryOk;
    assert M.Current(w.pool, Token(0, 1));
    assert P.Outstanding(w, Token(0, 1));
    P.OwedRequest(w, Token(0, 1));
    assert ChunkLength(TINY, 0) == 1;
  }

  lemma TinyWrites(w: P.World, bytes: seq<byte>)
    requires P.WorldOk(w) && TinyWaits(w) && |bytes| == 1 && |w.mem| == 1
    ensures var w' := P.Apply(w, P.Write(Token(0, 1), bytes));
      TinyWaits(w') && w'.mem == bytes && w'.source == w.source
  {
    hide P.WorldOk;
    TinyRequest(w);
  }

  /** The call may return, and finds its one slot ready. */
  predicate TinyReady(w: P.World) {
    && M.Shaped(w.pool) && w.pool.cfg == TINY && w.held == [] && w.waiting == [[TINY_LEASE]]
    && w.pool.slots[0].state.Ready? && w.pool.slots[0].pins == 1 && w.pool.slots[0].generation == 1
         && w.pool.slots[0].chunk == 0
  }

  lemma TinyDelivers(w: P.World)
    requires P.WorldOk(w) && TinyWaits(w) && |w.source| == 2 && w.mem == w.source[..1]
    ensures TinyReady(P.Apply(w, P.Deliver(Token(0, 1), FillResult(Ok, 1))))
  {
    hide P.WorldOk, M.OnComplete;
    TinyRequest(w);
    P.OnCompleteEnds(w.pool, Token(0, 1), FillResult(Ok, 1));
    assert ChunkLength(TINY, 0) == 1;
  }

  /** A caller holds the lease of the pool's only slot. */
  predicate TinyHolds(w: P.World) {
    && M.Shaped(w.pool) && w.pool.cfg == TINY && w.held == [TINY_LEASE]
    && w.pool.slots[0].state.Ready? && w.pool.slots[0].pins == 1 && w.pool.slots[0].generation == 1
         && w.pool.slots[0].chunk == 0
  }

  lemma TinyReturns(w: P.World)
    requires TinyReady(w)
    ensures TinyHolds(P.Apply(w, P.ResolveFinish(0)))
  {
    assert M.FirstFailure(w.pool, w.waiting[0], 1) == Ok;
    assert M.FirstFailure(w.pool, w.waiting[0], 0) == Ok;
  }

  /** The run reaches such a world. */
  lemma HoldFirstHolds(mem: seq<byte>, source: seq<byte>)
    requires TinyFits(mem, source)
    ensures T.Fits(TINY, mem, source) && TinyHolds(T.After(TINY, mem, source, HoldFirst(source)))
  {
    hide P.Apply, P.WorldOk, TinyWaits, TinyReady, TinyHolds;
    TinyIsValid(mem, source);
    var es := HoldFirst(source);
    var w0 := P.Create(TINY, mem, source);
    P.CreateOk(TINY, mem, source);
    var w1 := P.Apply(w0, es[0]);
    P.EventOk(w0, es[0]);
    TinyBegins(mem, source);
    TinySizes(w0, es[0]);
    var w2 := P.Apply(w1, es[1]);
    P.EventOk(w1, es[1]);
    TinyWrites(w1, source[..1]);
    var w3 := P.Apply(w2, es[2]);
    TinyDelivers(w2);
    TinyReturns(w3);
    FourSteps(w0, es);
  }

  lemma TinySizes(w: P.World, e: P.Event)
    requires M.Shaped(w.pool) && e.ResolveBegin?
    ensures P.Apply(w, e).mem == w.mem && P.Apply(w, e).source == w.source
  {
    hide M.ResolveBegin;
  }

  lemma FourSteps(w: P.World, es: seq<P.Event>)
    requires M.Shaped(w.pool) && |es| == 4
    ensures P.Run(w, es) == P.Apply(P.Apply(P.Apply(P.Apply(w, es[0]), es[1]), es[2]), es[3])
  {
    hide P.Apply;
    assert es == [] + [es[0]] + [es[1]] + [es[2]] + [es[3]];
    P.RunMore(w, [], es[0]);
    P.RunMore(w, [] + [es[0]], es[1]);
    P.RunMore(w, [] + [es[0]] + [es[1]], es[2]);
    P.RunMore(w, [] + [es[0]] + [es[1]] + [es[2]], es[3]);
  }

  // ----- two failing inputs -----

  /** The first: an empty batch. The call fails without proceeding, and the lease its caller holds in the span
      stays. */
  lemma EmptyBatchKeeps(w: P.World)
    requires TinyHolds(w)
    ensures ResolveReturns(w, [Held(TINY_LEASE)], [], [], [], EmptyRange, [Held(TINY_LEASE)])
    ensures TryReturns(w, [Held(TINY_LEASE)], [], EmptyRange, [Held(TINY_LEASE)])
    ensures !NoneHeld([Held(TINY_LEASE)])
  {
    assert CheckUpTo(w.pool.cfg, [], 0) == BatchCheck(Ok, 0);
    assert [Held(TINY_LEASE)][0].Held?;
  }

  const SECOND_BYTE: seq<ByteRange> := [ByteRange(1, 1)]

  lemma SecondByte()
    ensures TINY.Valid() && CheckBatch(TINY, SECOND_BYTE) == BatchCheck(Ok, 1)
    ensures M.Batch(TINY, SECOND_BYTE) == [Segment(1, ByteRange(1, 1))] && SegmentOk(TINY, Segment(1, ByteRange(1, 1)))
  {
    var range := ByteRange(1, 1);
    assert FirstChunk(1, range) == LastChunk(1, range) == 1;
    assert CheckUpTo(TINY, SECOND_BYTE, 0) == BatchCheck(Ok, 0);
    assert CheckUpTo(TINY, SECOND_BYTE, 1) == BatchCheck(Ok, 1);
    assert SegmentsUpTo(1, SECOND_BYTE, 0) == [];
    assert SegmentsUpTo(1, SECOND_BYTE, 1) == RangeSegments(1, range);
    assert RangeSegments(1, range) == [Segment(1, range)];
  }

  /** The second: a lease held past the entries the batch needs. The call proceeds and fails, with
      pool_exhausted (or not_resident), since that very lease pins the only slot; it stays. */
  lemma TailKeeps(w: P.World)
    requires TinyHolds(w)
    ensures var span := [Empty, Held(TINY_LEASE)];
      && Proceeds(TINY, SECOND_BYTE, |span|) && !NoneHeld(span)
      && ResolveReturns(w, span, SECOND_BYTE, [], [], PoolExhausted, span)
      && TryReturns(w, span, SECOND_BYTE, NotResident, span)
  {
    hide M.ResolveBegin, M.TryResolve, CheckBatch, M.Batch;
    var span := [Empty, Held(TINY_LEASE)];
    SecondByte();
    TailFails(w.pool);
    assert span[1].Held?;
    assert Handles([], 1) + span[1..] == span;
  }

  lemma TailFails(p: Pool)
    requires M.Shaped(p) && p.cfg == TINY && p.slots[0].state.Ready? && p.slots[0].pins == 1 && p.slots[0].chunk == 0
    ensures var b := M.ResolveBegin(p, SECOND_BYTE, 2, []);
      b.failure == PoolExhausted && b.leases == []
    ensures var b := M.TryResolve(p, SECOND_BYTE, 2);
      b.failure == NotResident && b.leases == []
  {
    hide CheckBatch, M.Batch, M.ResolveChunk;
    SecondByte();
    SecondMisses(p);
    var segments := M.Batch(TINY, SECOND_BYTE);
    assert M.ResolveUpTo(p, segments, [], 0) == M.Progress(p, [], Ok);
    assert M.ResolveUpTo(p, segments, [], 1) == M.ResolveChunk(p, [], segments[0], false);
    assert Lookup(p.slots, segments[0].chunk) == NONE;
  }

  lemma SecondMisses(p: Pool)
    requires M.Shaped(p) && p.cfg == TINY && p.slots[0].state.Ready? && p.slots[0].pins == 1 && p.slots[0].chunk == 0
    requires SegmentOk(TINY, Segment(1, ByteRange(1, 1)))
    ensures Lookup(p.slots, 1) == NONE
    ensures var b := M.ResolveChunk(p, [], Segment(1, ByteRange(1, 1)), false);
      b.failure == PoolExhausted && b.leases == []
  {
    hide LeaseFor, M.StartFill;
    var q := p.(stats := p.stats.(resolveMisses := p.stats.resolveMisses + 1));
    R.ClaimReach(q);
    NoSlots();
  }
}
