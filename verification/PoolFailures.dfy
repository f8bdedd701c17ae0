/** What a resolve reports when a fill it waits for fails (slot_pool.hpp, resolve): the result that was delivered for
    that fill, of the first of its leases whose fill failed, whatever ran in between. */
module PoolFailures {
  import opened Transfer
  import opened PoolState
  import opened ChunkTiling
  import opened PoolModel
  import opened PoolInvariant
  import opened PoolSteps
  import opened PoolResolve
  import opened PoolRuns
  import opened PoolProgress

  // ----- a slot while it is pinned -----

  /** While it is pinned, a slot keeps its fill, and how that fill ended. */
  predicate Stays(a: Slot, b: Slot) {
    0 < a.pins && 0 < b.pins && !a.state.Free? ==>
      b.generation == a.generation && b.state == a.state && (a.state.Failed? ==> b.failure == a.failure)
  }

  predicate AllStay(p: Pool, q: Pool) {
    |q.slots| == |p.slots| && forall i :: 0 <= i < |p.slots| ==> Stays(p.slots[i], q.slots[i])
  }

  lemma AdvancesStay(p: Pool, q: Pool)
    requires Advances(p, q)
    ensures AllStay(p, q)
  {
    forall i | 0 <= i < |p.slots| ensures Stays(p.slots[i], q.slots[i]) {
      assert Forward(p.slots[i], q.slots[i]);
    }
  }

  lemma UnpinnedStay(p: Pool, q: Pool, leases: seq<Lease>)
    requires Unpinned(p, q, leases)
    ensures AllStay(p, q)
  {
    forall i | 0 <= i < |p.slots| ensures Stays(p.slots[i], q.slots[i]) {
      assert Dropped(p.slots[i], q.slots[i]);
    }
  }

  lemma SameStay(p: Pool, q: Pool)
    requires q.slots == p.slots
    ensures AllStay(p, q)
  {
  }

  lemma FinishStay(w: World, c: nat)
    requires WorldOk(w) && Shaped(w.pool) && Enabled(w, ResolveFinish(c))
    ensures AllStay(w.pool, Apply(w, ResolveFinish(c)).pool)
  {
    hide Inv, PendingLinked, MemoryOk, OwedOk, LeasesOk, PinsMatch, StillFilling, PoolModel.ResolveFinish, Unpinned,
         CanUnpin, AllStay, AllSlotsReady, FailsFirst;
    CallCanUnpin(w, c);
    ResolveFinishInv(w.pool, w.waiting[c]);
    var b := PoolModel.ResolveFinish(w.pool, w.waiting[c]);
    if b.failure == Ok {
      SameStay(w.pool, b.pool);
    } else {
      UnpinnedStay(w.pool, b.pool, w.waiting[c]);
    }
  }

  lemma ReleaseStay(w: World, i: nat)
    requires WorldOk(w) && Shaped(w.pool) && Enabled(w, Release(i))
    ensures AllStay(w.pool, Apply(w, Release(i)).pool)
  {
    hide Inv, PendingLinked, MemoryOk, OwedOk, LeasesOk, PinsMatch, Unpin, Unpinned, AllStay;
    HeldIsPinned(w, i);
    UnpinInv(w.pool, w.held[i]);
    UnpinnedStay(w.pool, Unpin(w.pool, w.held[i].slot), [w.held[i]]);
  }

  lemma StaleStay(w: World, t: Token, result: FillResult)
    requires OwedOk(w) && Shaped(w.pool) && !Outstanding(w, t)
    ensures AllStay(w.pool, OnComplete(w.pool, t, result))
  {
    assert !Current(w.pool, t);
    SameStay(w.pool, OnComplete(w.pool, t, result));
  }

  lemma DiscardStay(p: Pool, r: nat)
    requires Shaped(p) && r < |p.tickets|
    ensures AllStay(p, PoolModel.DiscardTicket(p, r))
  {
  }

  /** Nothing but the delivery of its fill changes how a pinned slot stands. */
  lemma EventStay(w: World, e: Event)
    requires WorldOk(w) && Shaped(w.pool) && !Genuine(w, e)
    ensures AllStay(w.pool, Apply(w, e).pool)
  {
    hide Inv, PendingLinked, Advances, LeasesOk, MemoryOk, OwedOk, SamePins, PinsMatch, PinsAdded, StillFilling,
         Kept, AllStay,
         PoolModel.Prefetch, PoolModel.DiscardTicket, PoolModel.ResolveBegin, PoolModel.ResolveFinish,
         PoolModel.TryResolve, PoolModel.WontNeed, OnComplete, Unpin, CheckBatch, AllHold, SameFills;
    SameStay(w.pool, w.pool);
    if Enabled(w, e) {
      match e
      case Prefetch(ranges, admission, answers) =>
        var q := PoolModel.Prefetch(w.pool, ranges, admission, answers).0;
        PrefetchInv(w.pool, ranges, admission, answers);
        KeptAdvances(w.pool, q);
        AdvancesStay(w.pool, q);
      case DiscardTicket(r) => DiscardStay(w.pool, r);
      case ResolveBegin(ranges, room, answers) =>
        ResolveBeginInv(w.pool, ranges, room, answers);
        AdvancesStay(w.pool, PoolModel.ResolveBegin(w.pool, ranges, room, answers).pool);
      case ResolveFinish(c) => FinishStay(w, c);
      case TryResolve(ranges, room) =>
        TryResolveInv(w.pool, ranges, room);
        AdvancesStay(w.pool, PoolModel.TryResolve(w.pool, ranges, room).pool);
      case Release(i) => ReleaseStay(w, i);
      case WontNeed(ranges) =>
        WontNeedInv(w.pool, ranges);
        KeptAdvances(w.pool, PoolModel.WontNeed(w.pool, ranges));
        AdvancesStay(w.pool, PoolModel.WontNeed(w.pool, ranges));
      case Write(t, bytes) =>
      case Deliver(t, result) => StaleStay(w, t, result);
    }
  }

  /** The delivery of the fill of a pinned slot leaves it ready, or failed with what was delivered. */
  lemma DeliveryStands(w: World, e: Event)
    requires WorldOk(w) && Shaped(w.pool) && Genuine(w, e) && 0 < w.pool.slots[e.token.index].pins
    ensures e.token.index < |w.pool.slots| == |Apply(w, e).pool.slots| && e.token in w.pool.requests
    ensures var s, s' := w.pool.slots[e.token.index], Apply(w, e).pool.slots[e.token.index];
      var status := ClassifyFill(e.result, w.pool.requests[e.token].length);
      && s'.generation == s.generation == e.token.generation
      && (if status == Ok then s'.state.Ready? else s'.state.Failed? && s'.failure == status)
    ensures forall i :: 0 <= i < |w.pool.slots| && i != e.token.index ==>
      Apply(w, e).pool.slots[i] == w.pool.slots[i]
  {
    hide Inv, PendingLinked, LeasesOk, MemoryOk, PinsMatch, OnComplete, Honest;
    OwedRequest(w, e.token);
    OnCompleteEnds(w.pool, e.token, e.result);
  }

  // ----- over runs -----

  /** Event `k` delivered the fill `t`, which failed with `status`. */
  predicate FailedBy(w: World, es: seq<Event>, k: nat, t: Token, status: Status)
    requires Shaped(w.pool)
  {
    && k < |es|
    && var at := Run(w, es[..k]);
       && Genuine(at, es[k]) && es[k].token == t && t in at.pool.requests
       && status == ClassifyFill(es[k].result, at.pool.requests[t].length) && status != Ok
  }

  /** The slot still has the fill `t`; if it has failed, some delivery of the run is why. */
  ghost predicate Stands(w: World, es: seq<Event>, t: Token)
    requires Shaped(w.pool)
  {
    var p := Run(w, es).pool;
    && t.index < |p.slots| && p.slots[t.index].generation == t.generation && !p.slots[t.index].state.Free?
    && (p.slots[t.index].state.Failed? ==> exists k: nat :: FailedBy(w, es, k, t, p.slots[t.index].failure))
  }

  lemma FailedByMore(w: World, es: seq<Event>, e: Event, k: nat, t: Token, status: Status)
    requires Shaped(w.pool) && FailedBy(w, es, k, t, status)
    ensures FailedBy(w, es + [e], k, t, status)
  {
    assert (es + [e])[..k] == es[..k];
  }

  lemma StandsStep(w: World, es: seq<Event>, e: Event, t: Token)
    requires WorldOk(w) && Shaped(w.pool) && Stands(w, es, t)
    requires WorldOk(Run(w, es)) && 0 < Run(w, es).pool.slots[t.index].pins
    requires t.index < |Run(w, es + [e]).pool.slots| && 0 < Run(w, es + [e]).pool.slots[t.index].pins
    ensures Stands(w, es + [e], t)
  {
    hide WorldOk, Apply, FailedBy, Enabled;
    var before := Run(w, es);
    RunMore(w, es, e);
    if before.pool.slots[t.index].state.Failed? {
      var k: nat :| FailedBy(w, es, k, t, before.pool.slots[t.index].failure);
      FailedByMore(w, es, e, k, t, before.pool.slots[t.index].failure);
    }
    if Genuine(before, e) && e.token.index == t.index {
      GenuineOf(before, e, t);
      DeliveryStands(before, e);
      if ClassifyFill(e.result, before.pool.requests[t].length) != Ok {
        JustFailed(w, es, e, t);
      }
    } else if Genuine(before, e) {
      GenuineEnds(before, e);
    } else {
      EventStay(before, e);
      assert Stays(before.pool.slots[t.index], Apply(before, e).pool.slots[t.index]);
    }
  }

  lemma JustFailed(w: World, es: seq<Event>, e: Event, t: Token)
    requires Shaped(w.pool) && Genuine(Run(w, es), e) && e.token == t && t in Run(w, es).pool.requests
    requires ClassifyFill(e.result, Run(w, es).pool.requests[t].length) != Ok
    ensures FailedBy(w, es + [e], |es|, t, ClassifyFill(e.result, Run(w, es).pool.requests[t].length))
  {
    hide Run, Genuine;
    assert (es + [e])[..|es|] == es;
  }

  lemma GenuineOf(w: World, e: Event, t: Token)
    requires WorldOk(w) && Shaped(w.pool) && Genuine(w, e) && e.token.index == t.index < |w.pool.slots|
    requires w.pool.slots[t.index].generation == t.generation
    ensures e.token == t && t in w.pool.requests
  {
    OwedRequest(w, e.token);
  }

  lemma {:induction false} StandsRun(w: World, es: seq<Event>, c: nat, i: nat)
    requires WorldOk(w) && Shaped(w.pool) && c < |w.waiting| && i < |w.waiting[c]|
    requires ResolveFinish(c) !in es
    requires var lease := w.waiting[c][i];
      lease.slot < |w.pool.slots| && w.pool.slots[lease.slot].Live()
    ensures c < |Run(w, es).waiting| && Run(w, es).waiting[c] == w.waiting[c]
    ensures Stands(w, es, Token(w.waiting[c][i].slot, w.waiting[c][i].generation))
  {
    hide WorldOk, Apply, FailedBy;
    RunOk(w, es);
    if es == [] {
      CallPinned(w, c, i);
    } else {
      var last := |es| - 1;
      assert es[last] in es;
      StandsRun(w, es[..last], c, i);
      RunOk(w, es[..last]);
      var before := Run(w, es[..last]);
      CallsInPool(before, c);
      CallStays(before, es[last], c);
      CallPinned(before, c, i);
      CallPinned(Run(w, es), c, i);
      assert es == es[..last] + [es[last]];
      StandsStep(w, es[..last], es[last], Token(w.waiting[c][i].slot, w.waiting[c][i].generation));
    }
  }

  /** Over every run: a resolve that began, waited and then fails reports what was delivered, while it waited, for
      the fill that the first of its failed leases pins. */
  lemma FailureOfItsFill(w: World, ranges: seq<ByteRange>, room: nat, answers: seq<bool>, es: seq<Event>)
    requires WorldOk(w) && Shaped(w.pool)
    requires PoolModel.ResolveBegin(w.pool, ranges, room, answers).failure == Ok
    requires ResolveFinish(|w.waiting|) !in es
    requires Enabled(Run(Apply(w, ResolveBegin(ranges, room, answers)), es), ResolveFinish(|w.waiting|))
    ensures var c := |w.waiting|;
      var leases := PoolModel.ResolveBegin(w.pool, ranges, room, answers).leases;
      var begun := Apply(w, ResolveBegin(ranges, room, answers));
      var end := Run(begun, es);
      && end.waiting[c] == leases
      && var status := PoolModel.ResolveFinish(end.pool, leases).failure;
         (status != Ok ==> exists i: nat, k: nat ::
              i < |leases| && FailsFirst(end.pool, leases, 0, i, status)
                  && FailedBy(begun, es, k, Token(leases[i].slot, leases[i].generation), status))
  {
    hide WorldOk, Apply, Run, PoolModel.ResolveBegin, PoolModel.ResolveFinish, FailsFirst, FailedBy, Stands, Enabled;
    var e := ResolveBegin(ranges, room, answers);
    var begun := Apply(w, e);
    var c := |w.waiting|;
    EventOk(w, e);
    Begun(w, ranges, room, answers);
    RunOk(begun, es);
    var leases := begun.waiting[c];
    StandsRun(begun, es, c, 0);
    FinishFails(Run(begun, es), c);
    var status := PoolModel.ResolveFinish(Run(begun, es).pool, leases).failure;
    if status != Ok {
      var i: nat :| i < |leases| && FailsFirst(Run(begun, es).pool, leases, 0, i, status);
      StandsRun(begun, es, c, i);
      FailedWhy(begun, es, leases, i, status);
    }
  }

  lemma FailedWhy(w: World, es: seq<Event>, leases: seq<Lease>, i: nat, status: Status)
    requires Shaped(w.pool) && LeasesInPool(Run(w, es).pool, leases) && i < |leases|
    requires FailsFirst(Run(w, es).pool, leases, 0, i, status)
    requires Stands(w, es, Token(leases[i].slot, leases[i].generation))
    ensures exists k: nat :: FailedBy(w, es, k, Token(leases[i].slot, leases[i].generation), status)
  {
    hide Run, FailedBy;
  }

  /** A resolve that goes on to wait has live slots for its leases. */
  lemma Begun(w: World, ranges: seq<ByteRange>, room: nat, answers: seq<bool>)
    requires WorldOk(w) && Shaped(w.pool)
    requires PoolModel.ResolveBegin(w.pool, ranges, room, answers).failure == Ok
    ensures var leases := PoolModel.ResolveBegin(w.pool, ranges, room, answers).leases;
      var begun := Apply(w, ResolveBegin(ranges, room, answers));
      && |begun.waiting| == |w.waiting| + 1 && begun.waiting[|w.waiting|] == leases && 0 < |leases|
      && forall i :: 0 <= i < |leases| ==>
           leases[i].slot < |begun.pool.slots| && begun.pool.slots[leases[i].slot].Live()
  {
    hide Inv, PendingLinked, Advances, PinsAdded, SamePins, PoolModel.ResolveBegin, CheckBatch, MemoryOk, OwedOk,
         PinsMatch, LeasesOk, Batch, AllSegmentsOk;
    ResolveBeginInv(w.pool, ranges, room, answers);
    var b := PoolModel.ResolveBegin(w.pool, ranges, room, answers);
    var segments := Batch(w.pool.cfg, ranges);
    forall i | 0 <= i < |b.leases|
      ensures b.leases[i].slot < |b.pool.slots| && b.pool.slots[b.leases[i].slot].Live() {
      SegmentInSource(w.pool.cfg, segments, i);
      assert Holds(b.pool, b.leases[i], segments[i]);
    }
  }

  lemma FinishFails(w: World, c: nat)
    requires WorldOk(w) && Shaped(w.pool) && Enabled(w, ResolveFinish(c))
    ensures LeasesInPool(w.pool, w.waiting[c])
    ensures var status := PoolModel.ResolveFinish(w.pool, w.waiting[c]).failure;
      status != Ok ==> exists i: nat :: i < |w.waiting[c]| && FailsFirst(w.pool, w.waiting[c], 0, i, status)
  {
    hide Inv, PendingLinked, MemoryOk, OwedOk, LeasesOk, PinsMatch, StillFilling, PoolModel.ResolveFinish, Unpinned,
         CanUnpin, AllSlotsReady, FailsFirst;
    CallCanUnpin(w, c);
    ResolveFinishInv(w.pool, w.waiting[c]);
  }
}
