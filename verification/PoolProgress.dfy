/** Waiting in the pool: a resolve that waits is only ever brought closer to its end, and only by the
    backend's deliveries. */
module PoolProgress {
  import opened Transfer
  import opened PoolState
  import opened ChunkTiling
  import opened PoolModel
  import opened PoolInvariant
  import opened PoolSteps
  import opened PoolResolve
  import opened PoolRuns

  /** The event is the one delivery of a request the backend owes: the only kind that notifies. */
  predicate Genuine(w: World, e: Event)
    requires Shaped(w.pool)
  {
    e.Deliver? && Enabled(w, e) && Outstanding(w, e.token)
  }

  // ----- fills end only by delivery -----

  /** A fill goes on, no fill starts on a pinned slot, and nothing becomes ready. */
  predicate FillSteady(a: Slot, b: Slot) {
    && (a.state.Filling? ==> b.state.Filling? && b.generation == a.generation)
    && (0 < a.pins && b.state.Filling? ==> a.state.Filling?)
    && (b.state.Ready? ==> a.state.Ready? && b.chunk == a.chunk)
  }

  predicate FillsSteady(p: Pool, q: Pool) {
    |q.slots| == |p.slots| && forall i :: 0 <= i < |p.slots| ==> FillSteady(p.slots[i], q.slots[i])
  }

  lemma AdvancesSteady(p: Pool, q: Pool)
    requires Inv(p) && Advances(p, q)
    ensures FillsSteady(p, q)
  {
    forall i | 0 <= i < |p.slots| ensures FillSteady(p.slots[i], q.slots[i]) {
      assert Forward(p.slots[i], q.slots[i]);
      SlotIsOk(p, i);
    }
  }

  lemma UnpinnedSteady(p: Pool, q: Pool, leases: seq<Lease>)
    requires Unpinned(p, q, leases)
    ensures FillsSteady(p, q)
  {
    forall i | 0 <= i < |p.slots| ensures FillSteady(p.slots[i], q.slots[i]) {
      assert Dropped(p.slots[i], q.slots[i]);
    }
  }

  lemma SameSteady(p: Pool, q: Pool)
    requires q.slots == p.slots
    ensures FillsSteady(p, q)
  {
  }

  lemma FinishSteady(w: World, c: nat)
    requires WorldOk(w) && Shaped(w.pool) && Enabled(w, ResolveFinish(c))
    ensures FillsSteady(w.pool, Apply(w, ResolveFinish(c)).pool)
  {
    hide Inv, PendingLinked, MemoryOk, OwedOk, LeasesOk, PinsMatch, StillFilling, PoolModel.ResolveFinish, Unpinned,
         CanUnpin, FillsSteady, AllSlotsReady;
    CallCanUnpin(w, c);
    ResolveFinishInv(w.pool, w.waiting[c]);
    var b := PoolModel.ResolveFinish(w.pool, w.waiting[c]);
    if b.failure == Ok {
      SameSteady(w.pool, b.pool);
    } else {
      UnpinnedSteady(w.pool, b.pool, w.waiting[c]);
    }
  }

  lemma ReleaseSteady(w: World, i: nat)
    requires WorldOk(w) && Shaped(w.pool) && Enabled(w, Release(i))
    ensures FillsSteady(w.pool, Apply(w, Release(i)).pool)
  {
    hide Inv, PendingLinked, MemoryOk, OwedOk, LeasesOk, PinsMatch, Unpin, Unpinned, FillsSteady;
    HeldIsPinned(w, i);
    UnpinInv(w.pool, w.held[i]);
    UnpinnedSteady(w.pool, Unpin(w.pool, w.held[i].slot), [w.held[i]]);
  }

  /** No event but the backend's delivery ends a fill or makes a slot ready, and none starts a fill on a pinned
      slot. */
  lemma EventSteady(w: World, e: Event)
    requires WorldOk(w) && Shaped(w.pool) && !Genuine(w, e)
    ensures FillsSteady(w.pool, Apply(w, e).pool)
  {
    hide Inv, PendingLinked, Advances, LeasesOk, MemoryOk, OwedOk, SamePins, PinsMatch, PinsAdded, StillFilling,
         Kept, FillsSteady,
         PoolModel.Prefetch, PoolModel.DiscardTicket, PoolModel.ResolveBegin, PoolModel.ResolveFinish,
         PoolModel.TryResolve, PoolModel.WontNeed, OnComplete, Unpin, CheckBatch, AllHold, SameFills;
    SameSteady(w.pool, w.pool);
    if Enabled(w, e) {
      match e
      case Prefetch(ranges, admission, answers) =>
        var q := PoolModel.Prefetch(w.pool, ranges, admission, answers).0;
        PrefetchInv(w.pool, ranges, admission, answers);
        KeptAdvances(w.pool, q);
        AdvancesSteady(w.pool, q);
      case DiscardTicket(r) => DiscardSteady(w.pool, r);
      case ResolveBegin(ranges, room, answers) =>
        ResolveBeginInv(w.pool, ranges, room, answers);
        AdvancesSteady(w.pool, PoolModel.ResolveBegin(w.pool, ranges, room, answers).pool);
      case ResolveFinish(c) => FinishSteady(w, c);
      case TryResolve(ranges, room) =>
        TryResolveInv(w.pool, ranges, room);
        AdvancesSteady(w.pool, PoolModel.TryResolve(w.pool, ranges, room).pool);
      case Release(i) => ReleaseSteady(w, i);
      case WontNeed(ranges) =>
        WontNeedInv(w.pool, ranges);
        KeptAdvances(w.pool, PoolModel.WontNeed(w.pool, ranges));
        AdvancesSteady(w.pool, PoolModel.WontNeed(w.pool, ranges));
      case Write(t, bytes) =>
      case Deliver(t, result) => StaleSteady(w, t, result);
    }
  }

  lemma KeptAdvances(p: Pool, q: Pool)
    requires Kept(p, q)
    ensures Advances(p, q)
  {
  }

  lemma DiscardSteady(p: Pool, r: nat)
    requires Shaped(p) && r < |p.tickets|
    ensures FillsSteady(p, PoolModel.DiscardTicket(p, r))
  {
  }

  lemma StaleSteady(w: World, t: Token, result: FillResult)
    requires OwedOk(w) && Shaped(w.pool) && !Outstanding(w, t)
    ensures FillsSteady(w.pool, OnComplete(w.pool, t, result))
  {
    assert !Current(w.pool, t);
    SameSteady(w.pool, OnComplete(w.pool, t, result));
  }

  /** A genuine delivery ends the fill it names and moves no other slot. */
  lemma GenuineEnds(w: World, e: Event)
    requires WorldOk(w) && Shaped(w.pool) && Genuine(w, e)
    ensures var q := Apply(w, e).pool;
      && e.token.index < |q.slots| == |w.pool.slots|
      && w.pool.slots[e.token.index].state.Filling? && !q.slots[e.token.index].state.Filling?
      && forall i :: 0 <= i < |q.slots| && i != e.token.index ==> q.slots[i] == w.pool.slots[i]
  {
    hide Inv, PendingLinked, LeasesOk, MemoryOk, PinsMatch, OnComplete, Honest;
    OwedRequest(w, e.token);
    OnCompleteEnds(w.pool, e.token, e.result);
  }

  // ----- a waiting resolve -----

  /** The pins of waiting resolve `c` whose fills are still in flight: what it waits for. */
  function Awaited(w: World, c: nat): set<nat>
    requires c < |w.waiting| && LeasesInPool(w.pool, w.waiting[c])
  {
    set i | 0 <= i < |w.waiting[c]| && w.pool.slots[w.waiting[c][i].slot].state.Filling?
  }

  lemma CallsInPool(w: World, c: nat)
    requires WorldOk(w) && c < |w.waiting|
    ensures LeasesInPool(w.pool, w.waiting[c])
  {
    forall i | 0 <= i < |w.waiting[c]|
      ensures w.waiting[c][i].slot < |w.pool.slots| { assert LeaseOk(w.pool, w.waiting[c][i]); }
  }

  /** Once a resolve waits, its pins stay its own and what it waits for only shrinks: every event other
      than a genuine delivery leaves it as it is, and a delivery takes from it exactly the pins on the
      slot it names. */
  lemma WaitShrinks(w: World, e: Event, c: nat)
    requires WorldOk(w) && Shaped(w.pool) && c < |w.waiting|
    ensures var w' := Apply(w, e);
      && c < |w'.waiting|
      && LeasesInPool(w.pool, w.waiting[c]) && LeasesInPool(w'.pool, w.waiting[c])
      && (w'.waiting[c] == w.waiting[c] || (e == ResolveFinish(c) && Awaited(w, c) == {}))
      && (w'.waiting[c] == w.waiting[c] ==>
            Awaited(w', c) == if Genuine(w, e) then set i | i in Awaited(w, c) && w.waiting[c][i].slot != e.token.index
                              else Awaited(w, c))
  {
    hide WorldOk, Apply, Genuine;
    CallsInPool(w, c);
    CallStays(w, e, c);
    var w' := Apply(w, e);
    if Genuine(w, e) {
      GenuineEnds(w, e);
    } else {
      EventSteady(w, e);
      forall i | 0 <= i < |w.waiting[c]|
        ensures w'.pool.slots[w.waiting[c][i].slot].state.Filling? <==>
            w.pool.slots[w.waiting[c][i].slot].state.Filling? {
        CallPinned(w, c, i);
        assert FillSteady(w.pool.slots[w.waiting[c][i].slot], w'.pool.slots[w.waiting[c][i].slot]);
      }
    }
  }

  lemma CallPinned(w: World, c: nat, i: nat)
    requires WorldOk(w) && c < |w.waiting| && i < |w.waiting[c]|
    ensures LeaseOk(w.pool, w.waiting[c][i]) && 0 < w.pool.slots[w.waiting[c][i].slot].pins
  {
    WaitingIsPinned(w, c, i);
  }

  lemma CallStays(w: World, e: Event, c: nat)
    requires Shaped(w.pool) && c < |w.waiting| && LeasesInPool(w.pool, w.waiting[c])
    ensures var w' := Apply(w, e);
      && c < |w'.waiting| && |w'.pool.slots| == |w.pool.slots|
      && (w'.waiting[c] == w.waiting[c] || (e == ResolveFinish(c) && Awaited(w, c) == {}))
  {
    hide PoolModel.Prefetch, PoolModel.DiscardTicket, PoolModel.ResolveBegin, PoolModel.ResolveFinish,
         PoolModel.TryResolve, PoolModel.WontNeed, OnComplete, Unpin, Honest;
  }

  lemma AwaitedIsOwed(w: World, c: nat, i: nat)
    requires WorldOk(w) && c < |w.waiting| && LeasesInPool(w.pool, w.waiting[c]) && i in Awaited(w, c)
    ensures Outstanding(w, Token(w.waiting[c][i].slot, w.waiting[c][i].generation))
  {
    assert LeaseOk(w.pool, w.waiting[c][i]);
    assert Current(w.pool, Token(w.waiting[c][i].slot, w.waiting[c][i].generation));
  }

  /** A resolve that waits for nothing more can return, and while it waits for a fill the backend owes
      that fill's delivery. */
  lemma WaitEnds(w: World, c: nat)
    requires WorldOk(w) && Shaped(w.pool) && c < |w.waiting| && w.waiting[c] != []
    ensures LeasesInPool(w.pool, w.waiting[c])
    ensures Awaited(w, c) == {} ==> Enabled(w, ResolveFinish(c))
    ensures forall i :: i in Awaited(w, c) ==> Outstanding(w, Token(w.waiting[c][i].slot, w.waiting[c][i].generation))
  {
    hide WorldOk;
    CallsInPool(w, c);
    if StillFilling(w.pool, w.waiting[c]) {
      var i :| 0 <= i < |w.waiting[c]| && w.pool.slots[w.waiting[c][i].slot].state.Filling?;
      assert i in Awaited(w, c);
    }
    forall i | i in Awaited(w, c) ensures Outstanding(w, Token(w.waiting[c][i].slot, w.waiting[c][i].generation)) {
      AwaitedIsOwed(w, c, i);
    }
  }

  /** Whatever the result, delivering a fill a resolve waits for strictly shrinks what it waits for. */
  lemma DeliveryShrinks(w: World, c: nat, i: nat, result: FillResult)
    requires WorldOk(w) && Shaped(w.pool) && c < |w.waiting| && LeasesInPool(w.pool, w.waiting[c]) && i in Awaited(w, c)
    requires Honest(w, Token(w.waiting[c][i].slot, w.waiting[c][i].generation), result)
    ensures var w' := Apply(w, Deliver(Token(w.waiting[c][i].slot, w.waiting[c][i].generation), result));
      && c < |w'.waiting| && w'.waiting[c] == w.waiting[c] && LeasesInPool(w'.pool, w.waiting[c])
      && Awaited(w', c) < Awaited(w, c)
  {
    hide WorldOk, Apply, Honest;
    var e := Deliver(Token(w.waiting[c][i].slot, w.waiting[c][i].generation), result);
    AwaitedIsOwed(w, c, i);
    WaitShrinks(w, e, c);
    assert i !in Awaited(Apply(w, e), c);
  }
}
