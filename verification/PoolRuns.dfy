/** Every interleaving of the pool's callers with the backend. A run is a sequence of events, each one
    critical section of the pool or one action the backend contract (transfer.hpp) allows: it may write
    anything into the destination of a request it has accepted and not yet delivered, deliver such a
    request once, and deliver any other token at any time. */
module PoolRuns {
  import opened Transfer
  import opened Sums
  import opened Memory
  import opened PoolState
  import opened ChunkTiling
  import opened PoolModel
  import opened PoolInvariant
  import opened PoolSteps
  import opened PoolResolve

  /** `mem` is the storage span, `held` the leases callers hold, and `waiting[c]` the pins of the c-th
      resolve that went on to wait, empty once that call has returned. */
  datatype World = World(pool: Pool, mem: seq<byte>, source: seq<byte>, delivered: set<Token>,
                         held: seq<Lease>, waiting: seq<seq<Lease>>)

  datatype Event =
    | Prefetch(ranges: seq<ByteRange>, admission: AdmissionClass, answers: seq<bool>)
    | DiscardTicket(record: nat)
    | ResolveBegin(ranges: seq<ByteRange>, room: nat, answers: seq<bool>)
    | ResolveFinish(call: nat)
    | TryResolve(ranges: seq<ByteRange>, room: nat)
    | Release(i: nat)
    | WontNeed(ranges: seq<ByteRange>)
    | Write(token: Token, bytes: seq<byte>)
    | Deliver(token: Token, result: FillResult)

  // ----- the world -----

  function Create(cfg: Config, mem: seq<byte>, source: seq<byte>): World
    requires cfg.Valid()
  {
    World(PoolModel.Create(cfg), mem, source, {}, [], [])
  }

  /** Accepted and not yet delivered. */
  predicate Outstanding(w: World, token: Token) { token in w.pool.requests && token !in w.delivered }

  /** The `length` bytes of the source from `at` on. */
  function SourceBytes(w: World, at: nat, length: nat): seq<byte> { Part(w.source, at, length) }

  /** The contract's side of a delivery: it is terminal, and a complete fill has been written. */
  predicate Honest(w: World, token: Token, result: FillResult) {
    && result.status != Pending
    && (Outstanding(w, token) && ClassifyFill(result, w.pool.requests[token].length) == Ok ==>
          InMemory(w.mem, w.pool.requests[token].destination,
                   SourceBytes(w, w.pool.requests[token].source, w.pool.requests[token].length)))
  }

  predicate Enabled(w: World, e: Event)
    requires Shaped(w.pool)
  {
    match e
    case Prefetch(_, _, _) => true
    case DiscardTicket(r) => r < |w.pool.tickets| && w.pool.tickets[r].held
    case ResolveBegin(_, _, _) => true
    case ResolveFinish(c) =>
      c < |w.waiting| && w.waiting[c] != [] && LeasesInPool(w.pool, w.waiting[c]) && !StillFilling(w.pool, w.waiting[c])
    case TryResolve(_, _) => true
    case Release(i) => i < |w.held| && w.held[i].slot < |w.pool.slots|
    case WontNeed(_) => true
    case Write(t, bytes) =>
      Outstanding(w, t) && |bytes| == w.pool.requests[t].length && w.pool.requests[t].destination + |bytes| <= |w.mem|
    case Deliver(t, result) => Honest(w, t, result)
  }

  /** One event; an event that is not enabled does not happen. */
  function Apply(w: World, e: Event): (w': World)
    requires Shaped(w.pool)
    ensures SameShape(w.pool, w'.pool)
  {
    if !Enabled(w, e) then w
    else match e
      case Prefetch(ranges, admission, answers) => w.(pool := PoolModel.Prefetch(w.pool, ranges, admission, answers).0)
      case DiscardTicket(r) => w.(pool := PoolModel.DiscardTicket(w.pool, r))
      case ResolveBegin(ranges, room, answers) =>
        var b := PoolModel.ResolveBegin(w.pool, ranges, room, answers);
        w.(pool := b.pool, waiting := if b.failure == Ok then w.waiting + [b.leases] else w.waiting)
      case ResolveFinish(c) =>
        var b := PoolModel.ResolveFinish(w.pool, w.waiting[c]);
        w.(pool := b.pool, waiting := w.waiting[c := []], held := w.held + b.leases)
      case TryResolve(ranges, room) =>
        var b := PoolModel.TryResolve(w.pool, ranges, room);
        w.(pool := b.pool, held := w.held + b.leases)
      case Release(i) => w.(pool := Unpin(w.pool, w.held[i].slot), held := w.held[..i] + w.held[i + 1..])
      case WontNeed(ranges) => w.(pool := PoolModel.WontNeed(w.pool, ranges))
      case Write(t, bytes) => w.(mem := Overwrite(w.mem, w.pool.requests[t].destination, bytes))
      case Deliver(t, result) =>
        w.(pool := OnComplete(w.pool, t, result),
           delivered := if Outstanding(w, t) then w.delivered + {t} else w.delivered)
  }

  function Run(w: World, es: seq<Event>): (w': World)
    requires Shaped(w.pool)
    ensures SameShape(w.pool, w'.pool)
  {
    if es == [] then w else Apply(Run(w, es[..|es| - 1]), es[|es| - 1])
  }

  lemma RunMore(w: World, es: seq<Event>, e: Event)
    requires Shaped(w.pool)
    ensures Run(w, es + [e]) == Apply(Run(w, es), e)
  {
    hide Apply;
    assert (es + [e])[..|es|] == es;
  }

  // ----- what holds in every reachable world -----

  function CallWeight(slot: nat): seq<Lease> -> int { (leases: seq<Lease>) => Sum(leases, OnSlot(slot)) }

  /** Every pin belongs to one lease: held by a caller or by a waiting resolve. */
  predicate PinsMatch(w: World) {
    forall i :: 0 <= i < |w.pool.slots| ==>
      w.pool.slots[i].pins == Sum(w.held, OnSlot(i)) + Sum(w.waiting, CallWeight(i))
  }

  /** The lease still means what it meant when it was made: same fill, same chunk, bytes inside it. */
  predicate LeaseOk(p: Pool, lease: Lease) {
    && lease.slot < |p.slots|
    && var s := p.slots[lease.slot];
       && s.generation == lease.generation && !s.state.Free?
       && lease.source == s.chunk * p.cfg.slotBytes + lease.at
       && lease.at + lease.length <= ChunkLength(p.cfg, s.chunk)
  }

  predicate HeldOk(p: Pool, lease: Lease) { LeaseOk(p, lease) && p.slots[lease.slot].state.Ready? }

  predicate LeasesOk(w: World) {
    && (forall i :: 0 <= i < |w.held| ==> HeldOk(w.pool, w.held[i]))
    && (forall c, i :: 0 <= c < |w.waiting| && 0 <= i < |w.waiting[c]| ==> LeaseOk(w.pool, w.waiting[c][i]))
  }

  /** A ready slot holds the source's bytes for its chunk. */
  predicate SlotHoldsChunk(w: World, i: nat)
    requires i < |w.pool.slots|
  {
    var cfg := w.pool.cfg;
    var chunk := w.pool.slots[i].chunk;
    InMemory(w.mem, i * cfg.slotBytes, SourceBytes(w, chunk * cfg.slotBytes, ChunkLength(cfg, chunk)))
  }

  predicate MemoryOk(w: World) {
    && |w.mem| == w.pool.cfg.slotBytes * w.pool.cfg.numSlots && |w.source| == w.pool.cfg.sourceBytes
    && forall i :: 0 <= i < |w.pool.slots| && w.pool.slots[i].state.Ready? ==> SlotHoldsChunk(w, i)
  }

  /** The requests the backend still owes are exactly the fills in flight. */
  ghost predicate OwedOk(w: World) {
    && w.delivered <= w.pool.requests.Keys
    && forall t :: Outstanding(w, t) <==> Current(w.pool, t)
  }

  ghost predicate WorldOk(w: World) {
    Inv(w.pool) && PendingLinked(w.pool) && PinsMatch(w) && LeasesOk(w) && MemoryOk(w) && OwedOk(w)
  }

  // ----- critical sections that only move slots forward -----

  lemma LeaseForward(p: Pool, q: Pool, lease: Lease)
    requires Inv(p) && Advances(p, q) && LeaseOk(p, lease) && 0 < p.slots[lease.slot].pins
    ensures LeaseOk(q, lease) && (HeldOk(p, lease) ==> HeldOk(q, lease))
  {
    SlotIsOk(p, lease.slot);
    assert Forward(p.slots[lease.slot], q.slots[lease.slot]);
  }

  lemma HeldIsPinned(w: World, i: nat)
    requires PinsMatch(w) && LeasesOk(w) && i < |w.held|
    ensures HeldOk(w.pool, w.held[i]) && 0 < w.pool.slots[w.held[i].slot].pins
  {
    var slot := w.held[i].slot;
    SumPrefix(w.held, i, slot);
    CallsNonNegative(w.waiting, slot);
  }

  lemma CallsNonNegative(waiting: seq<seq<Lease>>, slot: nat)
    ensures 0 <= Sum(waiting, CallWeight(slot))
    ensures forall c :: 0 <= c < |waiting| ==> 0 <= Sum(waiting[c], OnSlot(slot)) <= Sum(waiting, CallWeight(slot))
  {
    forall c | 0 <= c < |waiting| ensures 0 <= CallWeight(slot)(waiting[c]) == Sum(waiting[c], OnSlot(slot)) {
      SumBounds(waiting[c], OnSlot(slot));
    }
    SumBounds(waiting, CallWeight(slot));
  }

  lemma WaitingIsPinned(w: World, c: nat, i: nat)
    requires Inv(w.pool) && PinsMatch(w) && LeasesOk(w) && c < |w.waiting| && i < |w.waiting[c]|
    ensures LeaseOk(w.pool, w.waiting[c][i]) && 0 < w.pool.slots[w.waiting[c][i].slot].pins
  {
    var slot := w.waiting[c][i].slot;
    SumPrefix(w.waiting[c], i, slot);
    SumBounds(w.held, OnSlot(slot));
    CallsNonNegative(w.waiting, slot);
  }

  lemma OwedForward(w: World, q: Pool)
    requires Inv(w.pool) && OwedOk(w) && Inv(q) && Advances(w.pool, q)
    ensures OwedOk(w.(pool := q))
  {
    var w' := w.(pool := q);
    forall t | Current(q, t) ensures Outstanding(w', t) {
      assert Logged(q, t.index);
      assert Forward(w.pool.slots[t.index], q.slots[t.index]);
      assert Outstanding(w, t) <==> Current(w.pool, t);
    }
    forall t | Outstanding(w', t) ensures Current(q, t) {
      if t in w.pool.requests {
        assert Outstanding(w, t) && Current(w.pool, t);
        assert Forward(w.pool.slots[t.index], q.slots[t.index]);
      }
    }
  }

  lemma MemoryForward(w: World, q: Pool)
    requires MemoryOk(w) && Advances(w.pool, q)
    ensures MemoryOk(w.(pool := q))
  {
    forall i | 0 <= i < |q.slots| && q.slots[i].state.Ready? ensures SlotHoldsChunk(w.(pool := q), i) {
      assert Forward(w.pool.slots[i], q.slots[i]) && SlotHoldsChunk(w, i);
    }
  }

  /** A section that moved slots forward and took the pins of `held` and `call`. */
  lemma ForwardOk(w: World, q: Pool, held: seq<Lease>, calls: seq<seq<Lease>>)
    requires WorldOk(w) && Inv(q) && PendingLinked(q) && Advances(w.pool, q)
    requires forall i :: 0 <= i < |held| ==> HeldOk(q, held[i])
    requires forall c, i :: 0 <= c < |calls| && 0 <= i < |calls[c]| ==> LeaseOk(q, calls[c][i])
    requires (calls == [] && PinsAdded(w.pool, q, held))
        || (held == [] && |calls| == 1 && PinsAdded(w.pool, q, calls[0]))
    ensures WorldOk(w.(pool := q, held := w.held + held, waiting := w.waiting + calls))
  {
    hide Inv, PendingLinked, Advances, HeldOk, LeaseOk, MemoryOk, OwedOk;
    var w' := w.(pool := q, held := w.held + held, waiting := w.waiting + calls);
    OwedForward(w, q);
    MemoryForward(w, q);
    SameMemory(w.(pool := q), w');
    PinsForward(w, q, held, calls);
    forall i | 0 <= i < |w'.held| ensures HeldOk(q, w'.held[i]) {
      if i < |w.held| {
        HeldIsPinned(w, i);
        HeldLease(w.pool, w.held[i]);
        LeaseForward(w.pool, q, w.held[i]);
      }
    }
    forall c, i | 0 <= c < |w'.waiting| && 0 <= i < |w'.waiting[c]| ensures LeaseOk(q, w'.waiting[c][i]) {
      if c < |w.waiting| {
        WaitingIsPinned(w, c, i);
        LeaseForward(w.pool, q, w.waiting[c][i]);
      } else {
        assert w'.waiting[c] == calls[c - |w.waiting|];
      }
    }
  }

  lemma HeldLease(p: Pool, lease: Lease)
    requires HeldOk(p, lease)
    ensures LeaseOk(p, lease)
  {
  }

  lemma SameMemory(w: World, w': World)
    requires w' == w.(held := w'.held, waiting := w'.waiting)
    ensures MemoryOk(w) ==> MemoryOk(w')
    ensures OwedOk(w) ==> OwedOk(w')
  {
    if MemoryOk(w) {
      forall i | 0 <= i < |w.pool.slots| && w.pool.slots[i].state.Ready? ensures SlotHoldsChunk(w', i) {
        assert SlotHoldsChunk(w, i);
      }
    }
    if OwedOk(w) {
      forall t ensures Outstanding(w', t) <==> Current(w'.pool, t) { assert Outstanding(w, t) <==> Current(w.pool, t); }
    }
  }

  lemma PinsForward(w: World, q: Pool, held: seq<Lease>, calls: seq<seq<Lease>>)
    requires PinsMatch(w) && |q.slots| == |w.pool.slots|
    requires (calls == [] && PinsAdded(w.pool, q, held))
        || (held == [] && |calls| == 1 && PinsAdded(w.pool, q, calls[0]))
    ensures PinsMatch(w.(pool := q, held := w.held + held, waiting := w.waiting + calls))
  {
    forall i | 0 <= i < |q.slots|
      ensures q.slots[i].pins == Sum(w.held + held, OnSlot(i)) + Sum(w.waiting + calls, CallWeight(i)) {
      SumAppend(w.held, held, OnSlot(i));
      SumAppend(w.waiting, calls, CallWeight(i));
      if |calls| == 1 {
        assert calls == [calls[0]];
        SumOne(calls[0], CallWeight(i));
      }
    }
  }

  // ----- dropping pins -----

  lemma LeaseDropped(p: Pool, q: Pool, leases: seq<Lease>, lease: Lease)
    requires Inv(p) && Unpinned(p, q, leases) && LeaseOk(p, lease) && 0 < q.slots[lease.slot].pins
    ensures LeaseOk(q, lease) && (HeldOk(p, lease) ==> HeldOk(q, lease))
  {
    assert Dropped(p.slots[lease.slot], q.slots[lease.slot]);
  }

  lemma OwedDropped(w: World, q: Pool, leases: seq<Lease>)
    requires OwedOk(w) && Unpinned(w.pool, q, leases)
    ensures OwedOk(w.(pool := q))
  {
    forall t ensures Outstanding(w.(pool := q), t) <==> Current(q, t) {
      assert Outstanding(w, t) <==> Current(w.pool, t);
      assert t.index < |q.slots| ==> Dropped(w.pool.slots[t.index], q.slots[t.index]);
    }
  }

  lemma MemoryDropped(w: World, q: Pool, leases: seq<Lease>)
    requires MemoryOk(w) && Unpinned(w.pool, q, leases)
    ensures MemoryOk(w.(pool := q))
  {
    forall i | 0 <= i < |q.slots| && q.slots[i].state.Ready? ensures SlotHoldsChunk(w.(pool := q), i) {
      assert Dropped(w.pool.slots[i], q.slots[i]) && SlotHoldsChunk(w, i);
    }
  }

  /** A section that dropped the pins of `gone`, leaving the leases of `held` and `waiting`. */
  lemma DroppedOk(w: World, q: Pool, gone: seq<Lease>, held: seq<Lease>, waiting: seq<seq<Lease>>)
    requires WorldOk(w) && Inv(q) && PendingLinked(q) && Unpinned(w.pool, q, gone)
    requires PinsMatch(w.(pool := q, held := held, waiting := waiting))
    requires forall i :: 0 <= i < |held| ==> HeldOk(w.pool, held[i])
    requires forall c, i :: 0 <= c < |waiting| && 0 <= i < |waiting[c]| ==> LeaseOk(w.pool, waiting[c][i])
    ensures WorldOk(w.(pool := q, held := held, waiting := waiting))
  {
    hide Inv, PendingLinked, MemoryOk, OwedOk, LeaseOk;
    var w' := w.(pool := q, held := held, waiting := waiting);
    OwedDropped(w, q, gone);
    MemoryDropped(w, q, gone);
    SameMemory(w.(pool := q), w');
    forall i | 0 <= i < |held| ensures HeldOk(q, held[i]) {
      HeldLease(w.pool, held[i]);
      LeaseInPool(w.pool, held[i]);
      PinnedInWorld(w', held[i].slot);
      assert 0 < Sum(held, OnSlot(held[i].slot)) by { SumPrefix(held, i, held[i].slot); }
      LeaseDropped(w.pool, q, gone, held[i]);
    }
    forall c, i | 0 <= c < |waiting| && 0 <= i < |waiting[c]| ensures LeaseOk(q, waiting[c][i]) {
      LeaseInPool(w.pool, waiting[c][i]);
      PinnedInWorld(w', waiting[c][i].slot);
      SumPrefix(waiting[c], i, waiting[c][i].slot);
      LeaseDropped(w.pool, q, gone, waiting[c][i]);
    }
  }

  lemma LeaseInPool(p: Pool, lease: Lease)
    requires LeaseOk(p, lease)
    ensures lease.slot < |p.slots|
  {
  }

  lemma PinnedInWorld(w: World, slot: nat)
    requires PinsMatch(w) && slot < |w.pool.slots|
    ensures Sum(w.held, OnSlot(slot)) <= w.pool.slots[slot].pins
    ensures forall c :: 0 <= c < |w.waiting| ==> Sum(w.waiting[c], OnSlot(slot)) <= w.pool.slots[slot].pins
  {
    SumBounds(w.held, OnSlot(slot));
    CallsNonNegative(w.waiting, slot);
  }

  lemma ReleaseOk(w: World, i: nat)
    requires WorldOk(w) && Shaped(w.pool) && Enabled(w, Release(i))
    ensures WorldOk(Apply(w, Release(i)))
  {
    hide Inv, PendingLinked, MemoryOk, OwedOk, HeldOk, LeaseOk, Unpin;
    var lease := w.held[i];
    var q := Unpin(w.pool, lease.slot);
    var held := w.held[..i] + w.held[i + 1..];
    HeldIsPinned(w, i);
    UnpinInv(w.pool, lease);
    forall s | 0 <= s < |q.slots| ensures q.slots[s].pins == Sum(held, OnSlot(s)) + Sum(w.waiting, CallWeight(s)) {
      SumRemove(w.held, i, OnSlot(s));
      SumOne(lease, OnSlot(s));
    }
    DroppedOk(w, q, [lease], held, w.waiting);
  }

  /** Finishing a resolve: its pins become held leases, or are dropped. */
  lemma ResolveFinishOk(w: World, c: nat)
    requires WorldOk(w) && Shaped(w.pool) && Enabled(w, ResolveFinish(c))
    ensures WorldOk(Apply(w, ResolveFinish(c)))
  {
    hide Inv, PendingLinked, MemoryOk, OwedOk, HeldOk, LeaseOk, StillFilling, PoolModel.ResolveFinish, Unpinned,
         AllSlotsReady, CanUnpin;
    var leases := w.waiting[c];
    CallCanUnpin(w, c);
    ResolveFinishInv(w.pool, leases);
    var b := PoolModel.ResolveFinish(w.pool, leases);
    FinishPins(w, c, b);
    var waiting := w.waiting[c := []];
    if b.failure == Ok {
      FinishedLeasesOk(w, c);
      SameMemory(w, w.(waiting := waiting, held := w.held + leases));
    } else {
      DroppedOk(w, b.pool, leases, w.held + [], waiting);
    }
  }

  lemma CallCanUnpin(w: World, c: nat)
    requires PinsMatch(w) && c < |w.waiting|
    ensures CanUnpin(w.pool, w.waiting[c])
  {
    forall i | 0 <= i < |w.pool.slots| ensures Sum(w.waiting[c], OnSlot(i)) <= w.pool.slots[i].pins {
      PinnedInWorld(w, i);
    }
  }

  lemma FinishPins(w: World, c: nat, b: Progress)
    requires PinsMatch(w) && c < |w.waiting|
    requires if b.failure == Ok then b.pool == w.pool && b.leases == w.waiting[c]
             else b.leases == [] && Unpinned(w.pool, b.pool, w.waiting[c])
    ensures PinsMatch(w.(pool := b.pool, waiting := w.waiting[c := []], held := w.held + b.leases))
  {
    forall i | 0 <= i < |b.pool.slots|
      ensures b.pool.slots[i].pins == Sum(w.held + b.leases, OnSlot(i)) + Sum(w.waiting[c := []], CallWeight(i)) {
      SumAppend(w.held, b.leases, OnSlot(i));
      SumUpdate(w.waiting, c, [], CallWeight(i));
    }
  }

  lemma FinishedLeasesOk(w: World, c: nat)
    requires LeasesOk(w) && c < |w.waiting| && LeasesInPool(w.pool, w.waiting[c]) && AllSlotsReady(w.pool, w.waiting[c])
    ensures LeasesOk(w.(waiting := w.waiting[c := []], held := w.held + w.waiting[c]))
  {
    forall i | 0 <= i < |w.waiting[c]| ensures HeldOk(w.pool, w.waiting[c][i]) {
      assert LeaseOk(w.pool, w.waiting[c][i]);
    }
  }

  // ----- the backend -----

  /** What an outstanding request asks for: the whole of its slot's chunk, into its slot's part of the storage. */
  lemma OwedRequest(w: World, t: Token)
    requires WorldOk(w) && Outstanding(w, t)
    ensures Current(w.pool, t)
    ensures w.pool.requests[t] == RequestFor(w.pool.cfg, t.index, t.generation, w.pool.slots[t.index].chunk)
  {
    assert Current(w.pool, t);
    assert Logged(w.pool, t.index);
  }

  /** A write into the destination of a request leaves every other slot's part of the storage alone. */
  lemma WriteApart(w: World, t: Token, bytes: seq<byte>, i: nat)
    requires t in w.pool.requests && w.pool.requests[t].destination == t.index * w.pool.cfg.slotBytes
    requires |bytes| <= w.pool.cfg.slotBytes && t.index * w.pool.cfg.slotBytes + |bytes| <= |w.mem|
    requires i < |w.pool.slots| && SlotHoldsChunk(w, i) && i != t.index
    ensures SlotHoldsChunk(w.(mem := Overwrite(w.mem, w.pool.requests[t].destination, bytes)), i)
  {
    hide ChunkLength, InMemory, Overwrite;
    if i < t.index {
      SlotsApart(w.pool.cfg, i, t.index);
    } else {
      SlotsApart(w.pool.cfg, t.index, i);
    }
    var chunk :=
        SourceBytes(w, w.pool.slots[i].chunk * w.pool.cfg.slotBytes, ChunkLength(w.pool.cfg, w.pool.slots[i].chunk));
    InMemoryApart(w.mem, t.index * w.pool.cfg.slotBytes, bytes, i * w.pool.cfg.slotBytes, chunk);
  }

  /** Bytes the backend writes never reach a ready slot. */
  lemma WriteOk(w: World, t: Token, bytes: seq<byte>)
    requires WorldOk(w) && Shaped(w.pool) && Enabled(w, Write(t, bytes))
    ensures WorldOk(Apply(w, Write(t, bytes)))
  {
    hide Inv, PendingLinked, LeasesOk, PinsMatch, Shaped, SlotHoldsChunk, OwedOk;
    var w' := Apply(w, Write(t, bytes));
    OwedRequest(w, t);
    OverwriteApart(w.mem, w.pool.requests[t].destination, bytes, 0, 0);
    forall i | 0 <= i < |w.pool.slots| && w.pool.slots[i].state.Ready? ensures SlotHoldsChunk(w', i) {
      MemoryAt(w, i);
      WriteApart(w, t, bytes, i);
    }
    SamePool(w, w');
  }

  lemma MemoryAt(w: World, i: nat)
    requires MemoryOk(w) && i < |w.pool.slots| && w.pool.slots[i].state.Ready?
    ensures SlotHoldsChunk(w, i)
  {
  }

  lemma SamePool(w: World, w': World)
    requires w' == w.(mem := w'.mem)
    ensures PinsMatch(w) ==> PinsMatch(w')
    ensures LeasesOk(w) ==> LeasesOk(w')
    ensures OwedOk(w) ==> OwedOk(w')
  {
    if OwedOk(w) {
      forall t ensures Outstanding(w', t) <==> Current(w'.pool, t) { assert Outstanding(w, t) <==> Current(w.pool, t); }
    }
  }

  /** A delivery's effect on the slots: the one it names ends its fill, which is no access, and the others do not
      move. */
  predicate Ended(p: Pool, q: Pool, token: Token, status: Status)
    requires Current(p, token)
  {
    && q.cfg == p.cfg && q.requests == p.requests && |q.slots| == |p.slots|
    && (forall i :: 0 <= i < |p.slots| && i != token.index ==> q.slots[i] == p.slots[i])
    && var s := p.slots[token.index];
       var s' := q.slots[token.index];
       && s'.chunk == s.chunk && s'.generation == s.generation && s'.pins == s.pins
       && s'.state == (if status == Ok then Ready else if s.pins == 0 then Free else Failed)
       && (status == Ok ==> s' == s.(state := Ready))
       && (status != Ok && s.pins != 0 ==> s' == s.(state := Failed, failure := status, hintUnconsumed := false))
  }

  lemma OnCompleteEnds(p: Pool, token: Token, result: FillResult)
    requires Shaped(p) && Current(p, token)
    ensures Ended(p, OnComplete(p, token, result), token,
                  ClassifyFill(result, ChunkLength(p.cfg, p.slots[token.index].chunk)))
  {
  }

  lemma DeliverStaleOk(w: World, t: Token, result: FillResult)
    requires WorldOk(w) && Shaped(w.pool) && result.status != Pending && !Outstanding(w, t)
    ensures WorldOk(w.(pool := OnComplete(w.pool, t, result)))
  {
    hide Inv, PendingLinked, LeaseOk, HeldOk, Shaped;
    var q := OnComplete(w.pool, t, result);
    OnCompleteInv(w.pool, t, result);
    assert !Current(w.pool, t);
    assert q == w.pool.(stats := q.stats);
    StatsWorld(w, q);
  }

  lemma StatsWorld(w: World, q: Pool)
    requires PinsMatch(w) && LeasesOk(w) && MemoryOk(w) && OwedOk(w) && q == w.pool.(stats := q.stats)
    ensures PinsMatch(w.(pool := q)) && LeasesOk(w.(pool := q)) && MemoryOk(w.(pool := q)) && OwedOk(w.(pool := q))
  {
    var w' := w.(pool := q);
    forall i | 0 <= i < |w.held| ensures HeldOk(q, w.held[i]) { assert HeldOk(w.pool, w.held[i]); }
    forall c, i | 0 <= c < |w.waiting| && 0 <= i < |w.waiting[c]| ensures LeaseOk(q, w.waiting[c][i]) {
      assert LeaseOk(w.pool, w.waiting[c][i]);
    }
    forall i | 0 <= i < |q.slots| && q.slots[i].state.Ready?
      ensures SlotHoldsChunk(w', i) { assert SlotHoldsChunk(w, i); }
    forall t ensures Outstanding(w', t) <==> Current(q, t) { assert Outstanding(w, t) <==> Current(w.pool, t); }
  }

  lemma LeaseEnded(p: Pool, q: Pool, t: Token, status: Status, lease: Lease)
    requires Current(p, t) && Ended(p, q, t, status) && LeaseOk(p, lease) && 0 < p.slots[lease.slot].pins
    ensures LeaseOk(q, lease) && (HeldOk(p, lease) ==> HeldOk(q, lease))
  {
  }

  lemma OwedEnded(w: World, q: Pool, t: Token, status: Status)
    requires OwedOk(w) && Outstanding(w, t) && Current(w.pool, t) && Ended(w.pool, q, t, status)
    ensures OwedOk(w.(pool := q, delivered := w.delivered + {t}))
  {
    forall u ensures Outstanding(w.(pool := q, delivered := w.delivered + {t}), u) <==> Current(q, u) {
      assert Outstanding(w, u) <==> Current(w.pool, u);
    }
  }

  /** The one delivery of an outstanding request: a complete fill is in memory when its slot turns ready. */
  lemma DeliverOk(w: World, t: Token, result: FillResult)
    requires WorldOk(w) && Shaped(w.pool) && Honest(w, t, result) && Outstanding(w, t)
    ensures WorldOk(w.(pool := OnComplete(w.pool, t, result), delivered := w.delivered + {t}))
  {
    hide Inv, PendingLinked, LeaseOk, HeldOk, Shaped, OwedOk, OnComplete;
    var q := OnComplete(w.pool, t, result);
    var w' := w.(pool := q, delivered := w.delivered + {t});
    OwedRequest(w, t);
    OnCompleteInv(w.pool, t, result);
    OnCompleteEnds(w.pool, t, result);
    var status := ClassifyFill(result, ChunkLength(w.pool.cfg, w.pool.slots[t.index].chunk));
    OwedEnded(w, q, t, status);
    forall i | 0 <= i < |q.slots| && q.slots[i].state.Ready? ensures SlotHoldsChunk(w', i) {
      assert i != t.index ==> SlotHoldsChunk(w, i);
    }
    forall i | 0 <= i < |w.held| ensures HeldOk(q, w.held[i]) {
      HeldIsPinned(w, i);
      HeldLease(w.pool, w.held[i]);
      LeaseEnded(w.pool, q, t, status, w.held[i]);
    }
    forall c, i | 0 <= c < |w.waiting| && 0 <= i < |w.waiting[c]| ensures LeaseOk(q, w.waiting[c][i]) {
      WaitingIsPinned(w, c, i);
      LeaseEnded(w.pool, q, t, status, w.waiting[c][i]);
    }
  }

  // ----- every run -----

  lemma KeptOk(w: World, q: Pool)
    requires WorldOk(w) && Kept(w.pool, q) && PendingLinked(q)
    ensures WorldOk(w.(pool := q))
  {
    hide Inv, PendingLinked, Advances, LeaseOk, HeldOk, MemoryOk, OwedOk, SamePins, PinsMatch;
    NoPinsAdded(w.pool, q);
    ForwardOk(w, q, [], []);
    assert w.(pool := q, held := w.held + [], waiting := w.waiting + []) == w.(pool := q);
  }

  lemma AllHoldLeases(p: Pool, leases: seq<Lease>, segments: seq<Segment>)
    requires Shaped(p) && AllSegmentsOk(p.cfg, segments) && AllHold(p, leases, segments)
    ensures LeasesInPool(p, leases) && forall i :: 0 <= i < |leases| ==> LeaseOk(p, leases[i])
  {
    forall i | 0 <= i < |leases| ensures LeaseOk(p, leases[i]) {
      assert SegmentOk(p.cfg, segments[i]) && Holds(p, leases[i], segments[i]);
    }
  }

  lemma ResolveBeginOk(w: World, ranges: seq<ByteRange>, room: nat, answers: seq<bool>)
    requires WorldOk(w) && Shaped(w.pool)
    ensures WorldOk(Apply(w, ResolveBegin(ranges, room, answers)))
  {
    hide Inv, PendingLinked, Advances, LeaseOk, HeldOk, MemoryOk, OwedOk, SamePins, PinsMatch, PinsAdded,
         PoolModel.ResolveBegin, Batch, CheckBatch, AllHold;
    var b := PoolModel.ResolveBegin(w.pool, ranges, room, answers);
    ResolveBeginInv(w.pool, ranges, room, answers);
    if b.failure == Ok {
      AllHoldLeases(b.pool, b.leases, Batch(w.pool.cfg, ranges));
      ForwardOk(w, b.pool, [], [b.leases]);
      assert w.held + [] == w.held;
    } else {
      KeptOk(w, b.pool);
    }
  }

  lemma TryResolveOk(w: World, ranges: seq<ByteRange>, room: nat)
    requires WorldOk(w) && Shaped(w.pool)
    ensures WorldOk(Apply(w, TryResolve(ranges, room)))
  {
    hide Inv, PendingLinked, Advances, LeaseOk, MemoryOk, OwedOk, SamePins, PinsMatch, PinsAdded,
         PoolModel.TryResolve, Batch, CheckBatch, AllHold;
    var b := PoolModel.TryResolve(w.pool, ranges, room);
    TryResolveInv(w.pool, ranges, room);
    if b.failure == Ok {
      AllHoldLeases(b.pool, b.leases, Batch(w.pool.cfg, ranges));
      ForwardOk(w, b.pool, b.leases, []);
      assert w.waiting + [] == w.waiting;
    } else {
      assert w.held + [] == w.held;
    }
  }

  /** One event of any kind keeps every invariant of the world. */
  lemma EventOk(w: World, e: Event)
    requires WorldOk(w) && Shaped(w.pool)
    ensures WorldOk(Apply(w, e))
  {
    hide Inv, PendingLinked, Advances, LeasesOk, MemoryOk, OwedOk, SamePins, PinsMatch, StillFilling, Kept,
         PoolModel.Prefetch, PoolModel.DiscardTicket, PoolModel.ResolveBegin, PoolModel.ResolveFinish,
         PoolModel.TryResolve, PoolModel.WontNeed, OnComplete, Unpin;
    if Enabled(w, e) {
      match e
      case Prefetch(ranges, admission, answers) =>
        PrefetchInv(w.pool, ranges, admission, answers);
        KeptOk(w, PoolModel.Prefetch(w.pool, ranges, admission, answers).0);
      case DiscardTicket(r) =>
        DiscardTicketInv(w.pool, r);
        KeptOk(w, PoolModel.DiscardTicket(w.pool, r));
      case ResolveBegin(ranges, room, answers) => ResolveBeginOk(w, ranges, room, answers);
      case ResolveFinish(c) => ResolveFinishOk(w, c);
      case TryResolve(ranges, room) => TryResolveOk(w, ranges, room);
      case Release(i) => ReleaseOk(w, i);
      case WontNeed(ranges) =>
        WontNeedInv(w.pool, ranges);
        KeptOk(w, PoolModel.WontNeed(w.pool, ranges));
      case Write(t, bytes) => WriteOk(w, t, bytes);
      case Deliver(t, result) =>
        if Outstanding(w, t) {
          DeliverOk(w, t, result);
        } else {
          DeliverStaleOk(w, t, result);
        }
    }
  }

  lemma CreateOk(cfg: Config, mem: seq<byte>, source: seq<byte>)
    requires cfg.Valid() && |mem| == cfg.slotBytes * cfg.numSlots && |source| == cfg.sourceBytes
    ensures WorldOk(Create(cfg, mem, source))
  {
    CreateInv(cfg);
  }

  /** In every reachable world the pool, its pins, its memory and what the backend owes are in order. */
  lemma {:induction false} RunOk(w: World, es: seq<Event>)
    requires WorldOk(w) && Shaped(w.pool)
    ensures WorldOk(Run(w, es))
  {
    hide WorldOk, Apply;
    if es != [] {
      RunOk(w, es[..|es| - 1]);
      EventOk(Run(w, es[..|es| - 1]), es[|es| - 1]);
    }
  }

  lemma WorldInv(w: World)
    requires WorldOk(w)
    ensures Inv(w.pool) && PendingLinked(w.pool)
  {
  }
}
