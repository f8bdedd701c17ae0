/** How many pins a slot can have (slot_pool.hpp). Its counter has 32 bits and is unbounded in the model, which is
    the same thing as long as fewer than 2^32 leases are outstanding, and not beyond. */
module PoolPins {
  import opened Transfer
  import opened Sums
  import opened PoolState
  import opened ChunkTiling
  import opened PoolSpans
  import M = PoolModel
  import I = PoolInvariant
  import P = PoolRuns
  import T = PoolTheorems
  import E = PoolExhaustion

  /** One more than the source's pin counters can hold. */
  const PIN_RANGE: nat := 0x1_0000_0000

  /** The leases callers hold, and those of resolves that still wait. */
  function Leases(w: P.World): nat { |w.held| + |T.WaitingPins(w.waiting)| }

  /** No slot has more pins than there are leases. */
  lemma PinsAtMostLeases(w: P.World, i: nat)
    requires P.WorldOk(w) && i < |w.pool.slots|
    ensures 0 <= w.pool.slots[i].pins <= Leases(w)
  {
    hide P.LeasesOk, P.OwedOk, P.MemoryOk, P.PinsMatch;
    hide I.EntriesOk, I.TicketsOk, I.LogOk;
    T.Accounting(w);
    forall j | 0 <= j < |w.pool.slots| ensures 0 <= I.PinWeight(w.pool.slots[j]) {
      assert I.SlotOk(w.pool.cfg, w.pool.slots[j]);
    }
    SumBounds(w.pool.slots, I.PinWeight);
    assert I.PinWeight(w.pool.slots[i]) <= Sum(w.pool.slots, I.PinWeight);
  }

  // ----- any number of leases of one slot -----

  /** The pool's only slot is ready, with so many leases held on it. */
  predicate TinyPinned(w: P.World, n: nat) {
    && M.Shaped(w.pool) && w.pool.cfg == TINY && |w.held| == n
    && w.pool.slots[0].state.Ready? && w.pool.slots[0].pins == n && w.pool.slots[0].chunk == 0
  }

  const AGAIN: P.Event := P.TryResolve(E.FIRST_BYTE, 1)

  /** A try_resolve of the same byte holds one more. */
  lemma OneMore(w: P.World, n: nat)
    requires TinyPinned(w, n)
    ensures TinyPinned(P.Apply(w, AGAIN), n + 1)
  {
    hide CheckBatch, M.Batch, LeaseFor;
    E.FirstByte(TINY);
    var segments := [E.FIRST_SEGMENT];
    FoundReady(w.pool);
    assert M.AllReady(w.pool, segments);
    assert M.HitUpTo(w.pool, segments, 0) == M.Progress(w.pool, [], Ok);
  }

  lemma FoundReady(p: Pool)
    requires M.Shaped(p) && p.cfg == TINY && p.slots[0].state.Ready? && p.slots[0].chunk == 0
    ensures Lookup(p.slots, 0) == 0
  {
  }

  /** One lease by a resolve, and the others by try_resolve. */
  function Hold(source: seq<byte>, n: nat): seq<P.Event>
    requires |source| == 2
  {
    HoldFirst(source) + seq(n, _ => AGAIN)
  }

  lemma {:induction false} HoldHolds(mem: seq<byte>, source: seq<byte>, n: nat)
    requires TinyFits(mem, source)
    ensures T.Fits(TINY, mem, source) && TinyPinned(T.After(TINY, mem, source, Hold(source, n)), n + 1)
  {
    hide P.Apply, P.Run, TinyPinned;
    HoldFirstHolds(mem, source);
    if n == 0 {
      assert Hold(source, 0) == HoldFirst(source);
      HeldIsPinned(T.After(TINY, mem, source, HoldFirst(source)));
    } else {
      HoldHolds(mem, source, n - 1);
      assert Hold(source, n) == Hold(source, n - 1) + [AGAIN];
      P.RunMore(P.Create(TINY, mem, source), Hold(source, n - 1), AGAIN);
      OneMore(T.After(TINY, mem, source, Hold(source, n - 1)), n);
    }
  }

  lemma HeldIsPinned(w: P.World)
    requires TinyHolds(w)
    ensures TinyPinned(w, 1)
  {
  }

  // ----- exactly when the counter is wide enough -----

  /** In every reachable world with at most `bound` leases outstanding, every pin count has a place in 32 bits. */
  ghost predicate PinsFit(bound: nat) {
    forall cfg: Config, mem: seq<byte>, source: seq<byte>, es: seq<P.Event>, i: nat
      | T.Fits(cfg, mem, source) && PinnedAfter(cfg, mem, source, es, i, bound) ::
      T.After(cfg, mem, source, es).pool.slots[i].pins < PIN_RANGE
  }

  ghost predicate PinnedAfter(cfg: Config, mem: seq<byte>, source: seq<byte>, es: seq<P.Event>, i: nat, bound: nat)
    requires cfg.Valid()
  {
    i < |T.After(cfg, mem, source, es).pool.slots| && Leases(T.After(cfg, mem, source, es)) <= bound
  }

  /** That is so if and only if fewer than 2^32 leases may be outstanding. */
  lemma PinsFitExactly(bound: nat)
    ensures PinsFit(bound) <==> bound < PIN_RANGE
  {
    hide T.After, P.WorldOk, Leases, TinyPinned;
    if bound < PIN_RANGE {
      forall cfg: Config, mem: seq<byte>, source: seq<byte>, es: seq<P.Event>, i: nat
        | T.Fits(cfg, mem, source) && PinnedAfter(cfg, mem, source, es, i, bound)
        ensures T.After(cfg, mem, source, es).pool.slots[i].pins < PIN_RANGE {
        T.AfterOk(cfg, mem, source, es);
        PinsAtMostLeases(T.After(cfg, mem, source, es), i);
      }
    } else {
      var mem, source: seq<byte> := [0], [0, 0];
      var es := Hold(source, PIN_RANGE - 1);
      HoldHolds(mem, source, PIN_RANGE - 1);
      T.AfterOk(TINY, mem, source, es);
      TinyLeases(T.After(TINY, mem, source, es), PIN_RANGE);
      assert PinnedAfter(TINY, mem, source, es, 0, bound);
    }
  }

  lemma TinyLeases(w: P.World, n: nat)
    requires P.WorldOk(w) && TinyPinned(w, n)
    ensures Leases(w) == n && 0 < |w.pool.slots| && w.pool.slots[0].pins == n
  {
    hide P.LeasesOk, P.OwedOk, P.MemoryOk, P.PinsMatch;
    T.Accounting(w);
    assert w.pool.slots == [w.pool.slots[0]];
    SumOne(w.pool.slots[0], I.PinWeight);
  }
}
