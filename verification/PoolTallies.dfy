/** The delivery counters of SlotPool (slot_pool.hpp, on_complete) over whole runs: each is the number of the
    deliveries of its kind, and every fill accepted is delivered once or still in flight. */
module PoolTallies {
  import opened Transfer
  import opened PoolState
  import ClockSweep
  import opened ChunkTiling
  import opened PoolModel
  import P = PoolRuns
  import T = PoolTheorems
  import H = PoolHints

  /** What a delivery was for the pool: of no fill it was owed, of the whole chunk, or of a fill that failed. */
  datatype Kind = Stale | Filled | Failing

  function KindOf(w: P.World, e: P.Event): Option<Kind>
    requires Shaped(w.pool)
  {
    if !e.Deliver? || !P.Enabled(w, e) then None
    else if !P.Outstanding(w, e.token) then Some(Stale)
    else if ClassifyFill(e.result, w.pool.requests[e.token].length) == Ok then Some(Filled)
    else Some(Failing)
  }

  /** Deliveries of the kind in a run, and the bytes of those that filled a chunk. */
  function Count(w: P.World, es: seq<P.Event>, kind: Kind): nat
    requires Shaped(w.pool)
  {
    if es == [] then 0
    else
      var last := |es| - 1;
      Count(w, es[..last], kind) + if KindOf(P.Run(w, es[..last]), es[last]) == Some(kind) then 1 else 0
  }

  function Bytes(w: P.World, es: seq<P.Event>): nat
    requires Shaped(w.pool)
  {
    if es == [] then 0
    else
      var last := |es| - 1;
      var before := P.Run(w, es[..last]);
      Bytes(w, es[..last]) + if KindOf(before, es[last]) == Some(Filled)
          then before.pool.requests[es[last].token].length else 0
  }

  // ----- only deliveries move these counters -----

  predicate SameTally(p: Pool, q: Pool) {
    q.stats.stale == p.stats.stale && q.stats.fillsFailed == p.stats.fillsFailed
        && q.stats.bytesRead == p.stats.bytesRead
  }

  lemma {:induction false} HintsSame(p: Pool, r: nat, segments: seq<Segment>, admission: AdmissionClass,
                                     answers: seq<bool>, k: nat)
    requires Shaped(p) && r < |p.tickets| && k <= |segments| <= p.cfg.maxBatch
    ensures SameTally(p, PrefetchUpTo(p, r, segments, admission, answers, k))
  {
    hide PrefetchChunk;
    if k > 0 {
      HintsSame(p, r, segments, admission, answers, k - 1);
      var q := PrefetchUpTo(p, r, segments, admission, answers, k - 1);
      EntryInBlock(p.cfg, r, k - 1);
      HintSame(q, r, r * p.cfg.maxBatch + k - 1, segments[k - 1].chunk, admission, Answer(answers, k - 1));
    }
  }

  lemma HintSame(p: Pool, r: nat, e: nat, chunk: nat, admission: AdmissionClass, accepted: bool)
    requires Shaped(p) && r < |p.tickets| && e < |p.on|
    ensures SameTally(p, PrefetchChunk(p, r, e, chunk, admission, accepted))
  {
    hide Lookup, ClockSweep.Sweep, ClockSweep.ClearBits;
  }

  lemma PrefetchSame(p: Pool, ranges: seq<ByteRange>, admission: AdmissionClass, answers: seq<bool>)
    requires Shaped(p)
    ensures SameTally(p, Prefetch(p, ranges, admission, answers).0)
  {
    hide PrefetchUpTo, CheckBatch, Batch;
    var check := CheckBatch(p.cfg, ranges);
    var r := FirstFreeRecord(p.tickets, 0);
    if check.status == Ok && r < |p.tickets| {
      HintsSame(OpenRecord(p, r, check.chunks), r, Batch(p.cfg, ranges), admission, answers, check.chunks);
    }
  }

  lemma {:induction false} TakesSame(p: Pool, segments: seq<Segment>, answers: seq<bool>, k: nat)
    requires Shaped(p) && AllSegmentsOk(p.cfg, segments) && k <= |segments|
    ensures SameTally(p, ResolveUpTo(p, segments, answers, k).pool)
  {
    hide ResolveChunk;
    if k > 0 {
      TakesSame(p, segments, answers, k - 1);
      var before := ResolveUpTo(p, segments, answers, k - 1);
      if before.failure == Ok {
        TakeSame(before.pool, before.leases, segments[k - 1], Answer(answers, k - 1));
      }
    }
  }

  lemma TakeSame(p: Pool, leases: seq<Lease>, segment: Segment, accepted: bool)
    requires Shaped(p) && LeasesInPool(p, leases) && SegmentOk(p.cfg, segment)
    ensures SameTally(p, ResolveChunk(p, leases, segment, accepted).pool)
  {
    hide Lookup, ClockSweep.Sweep, ClockSweep.ClearBits, LeaseFor, SlotSet;
  }

  lemma {:induction false} UnpinSame(p: Pool, leases: seq<Lease>, k: nat)
    requires Shaped(p) && LeasesInPool(p, leases) && k <= |leases|
    ensures SameTally(p, UnpinUpTo(p, leases, k))
  {
    if k > 0 {
      UnpinSame(p, leases, k - 1);
    }
  }

  lemma ResolveBeginSame(p: Pool, ranges: seq<ByteRange>, room: nat, answers: seq<bool>)
    requires Shaped(p)
    ensures SameTally(p, ResolveBegin(p, ranges, room, answers).pool)
  {
    hide ResolveUpTo, CheckBatch, Batch, UnpinUpTo;
    var check := CheckBatch(p.cfg, ranges);
    if check.status == Ok && check.chunks <= room {
      TakesSame(p, Batch(p.cfg, ranges), answers, check.chunks);
      var b := ResolveUpTo(p, Batch(p.cfg, ranges), answers, check.chunks);
      UnpinSame(b.pool, b.leases, |b.leases|);
    }
  }

  lemma {:induction false} HitsSame(p: Pool, segments: seq<Segment>, k: nat)
    requires Shaped(p) && k <= |segments| && AllSegmentsOk(p.cfg, segments) && AllReady(p, segments)
    ensures SameTally(p, HitUpTo(p, segments, k).pool)
  {
    hide LeaseFor;
    if k > 0 {
      HitsSame(p, segments, k - 1);
    }
  }

  lemma TryResolveSame(p: Pool, ranges: seq<ByteRange>, room: nat)
    requires Shaped(p)
    ensures SameTally(p, TryResolve(p, ranges, room).pool)
  {
    hide HitUpTo, CheckBatch, Batch, AllReady;
    var check := CheckBatch(p.cfg, ranges);
    if check.status == Ok && check.chunks <= room && AllReady(p, Batch(p.cfg, ranges)) {
      HitsSame(p, Batch(p.cfg, ranges), |Batch(p.cfg, ranges)|);
    }
  }

  lemma CallersSame(w: P.World, e: P.Event)
    requires Shaped(w.pool) && !e.Deliver?
    ensures SameTally(w.pool, P.Apply(w, e).pool)
  {
    hide Prefetch, ResolveBegin, TryResolve, UnpinUpTo;
    if P.Enabled(w, e) {
      match e
      case Prefetch(ranges, admission, answers) => PrefetchSame(w.pool, ranges, admission, answers);
      case ResolveBegin(ranges, room, answers) => ResolveBeginSame(w.pool, ranges, room, answers);
      case ResolveFinish(c) => UnpinSame(w.pool, w.waiting[c], |w.waiting[c]|);
      case TryResolve(ranges, room) => TryResolveSame(w.pool, ranges, room);
      case _ =>
    }
  }

  // ----- one event -----

  /** What the event adds to each counter. */
  lemma TallyStep(w: P.World, e: P.Event)
    requires P.WorldOk(w) && Shaped(w.pool)
    ensures var kind := KindOf(w, e);
      var s, s' := w.pool.stats, P.Apply(w, e).pool.stats;
      && s'.stale == s.stale + (if kind == Some(Stale) then 1 else 0)
      && s'.fillsFailed == s.fillsFailed + (if kind == Some(Failing) then 1 else 0)
      && s'.bytesRead == s.bytesRead + (if kind == Some(Filled) then w.pool.requests[e.token].length else 0)
    ensures |P.Apply(w, e).delivered|
        == |w.delivered| + (if KindOf(w, e) in {Some(Filled), Some(Failing)} then 1 else 0)
  {
    hide P.WorldOk, OnComplete;
    if !e.Deliver? {
      CallersSame(w, e);
      DeliveredSame(w, e);
    } else if P.Enabled(w, e) {
      H.DeliveryCounted(w.pool, e.token, e.result);
      OwedIsCurrent(w, e.token);
    }
  }

  lemma DeliveredSame(w: P.World, e: P.Event)
    requires Shaped(w.pool) && !e.Deliver?
    ensures P.Apply(w, e).delivered == w.delivered
  {
    hide Prefetch, ResolveBegin, ResolveFinish, TryResolve, WontNeed, DiscardTicket, Unpin, OnComplete;
  }

  lemma OwedIsCurrent(w: P.World, t: Token)
    requires P.WorldOk(w)
    ensures P.Outstanding(w, t) <==> Current(w.pool, t)
    ensures P.Outstanding(w, t) ==> w.pool.requests[t].length == ChunkLength(w.pool.cfg, w.pool.slots[t.index].chunk)
  {
    if P.Outstanding(w, t) {
      P.OwedRequest(w, t);
    }
  }

  // ----- every run -----

  lemma {:induction false} Tallied(w: P.World, es: seq<P.Event>)
    requires P.WorldOk(w) && Shaped(w.pool)
    ensures var s, s' := w.pool.stats, P.Run(w, es).pool.stats;
      && s'.stale == s.stale + Count(w, es, Stale)
      && s'.fillsFailed == s.fillsFailed + Count(w, es, Failing)
      && s'.bytesRead == s.bytesRead + Bytes(w, es)
    ensures |P.Run(w, es).delivered| == |w.delivered| + Count(w, es, Filled) + Count(w, es, Failing)
  {
    hide P.WorldOk, P.Apply, KindOf;
    if es != [] {
      var last := |es| - 1;
      Tallied(w, es[..last]);
      P.RunOk(w, es[..last]);
      TallyStep(P.Run(w, es[..last]), es[last]);
    }
  }

  /** From the pool's creation on: the counters are the numbers of stale deliveries and of failed fills, and the
      bytes of the chunks filled; and every fill the backend accepted was filled, failed, or is in flight. */
  lemma FillsAccountedFor(cfg: Config, mem: seq<byte>, source: seq<byte>, es: seq<P.Event>)
    requires T.Fits(cfg, mem, source)
    ensures var w := T.After(cfg, mem, source, es);
      var start := P.Create(cfg, mem, source);
      && w.pool.stats.stale == Count(start, es, Stale)
      && w.pool.stats.fillsFailed == Count(start, es, Failing)
      && w.pool.stats.bytesRead == Bytes(start, es)
      && |w.pool.requests| == Count(start, es, Filled) + Count(start, es, Failing) + w.pool.inFlight
  {
    hide P.WorldOk, P.Run, Count, Bytes;
    P.CreateOk(cfg, mem, source);
    Tallied(P.Create(cfg, mem, source), es);
    T.AfterOk(cfg, mem, source, es);
    T.OwedCount(T.After(cfg, mem, source, es));
    OwedAndDelivered(T.After(cfg, mem, source, es));
  }

  lemma OwedAndDelivered(w: P.World)
    requires P.WorldOk(w)
    ensures |w.pool.requests| == |w.delivered| + |T.Owed(w)|
  {
    assert w.pool.requests.Keys == w.delivered + T.Owed(w);
    assert w.delivered !! T.Owed(w);
  }
}
