/** What the pool promises over every run: leased bytes, accounting, progress of waiting resolves, and
    ticket outcomes. */
module PoolTheorems {
  import opened Transfer
  import opened Sums
  import opened PoolState
  import opened PoolModel
  import opened PoolInvariant
  import opened PoolSteps
  import opened PoolRuns

  /** A freshly created pool, after any run. */
  function After(cfg: Config, mem: seq<byte>, source: seq<byte>, es: seq<Event>): World
    requires cfg.Valid()
  {
    Run(PoolRuns.Create(cfg, mem, source), es)
  }

  predicate Fits(cfg: Config, mem: seq<byte>, source: seq<byte>) {
    cfg.Valid() && |mem| == cfg.slotBytes * cfg.numSlots && |source| == cfg.sourceBytes
  }

  lemma AfterOk(cfg: Config, mem: seq<byte>, source: seq<byte>, es: seq<Event>)
    requires Fits(cfg, mem, source)
    ensures WorldOk(After(cfg, mem, source, es))
    ensures After(cfg, mem, source, es).source == source && After(cfg, mem, source, es).pool.cfg == cfg
  {
    CreateOk(cfg, mem, source);
    RunOk(PoolRuns.Create(cfg, mem, source), es);
    SourceFixed(PoolRuns.Create(cfg, mem, source), es);
  }

  lemma {:induction false} SourceFixed(w: World, es: seq<Event>)
    requires Shaped(w.pool)
    ensures Run(w, es).source == w.source
  {
    hide Shaped, Enabled, PoolModel.Prefetch, PoolModel.DiscardTicket, PoolModel.ResolveBegin, PoolModel.ResolveFinish,
         PoolModel.TryResolve, PoolModel.WontNeed, OnComplete, Unpin;
    if es != [] {
      SourceFixed(w, es[..|es| - 1]);
    }
  }

  // ----- leased bytes -----

  /** The bytes a lease shows. */
  function Shown(w: World, lease: Lease): seq<byte> {
    var at := lease.slot * w.pool.cfg.slotBytes + lease.at;
    if at + lease.length <= |w.mem| then w.mem[at..at + lease.length] else []
  }

  lemma ShownIsSource(w: World, i: nat)
    requires WorldOk(w) && i < |w.held|
    ensures w.held[i].source + w.held[i].length <= |w.source|
    ensures |Shown(w, w.held[i])| == w.held[i].length
    ensures Shown(w, w.held[i]) == SourceBytes(w, w.held[i].source, w.held[i].length)
  {
    var lease := w.held[i];
    assert HeldOk(w.pool, lease);
    assert SlotHoldsChunk(w, lease.slot);
    SlotIsOk(w.pool, lease.slot);
    SliceOfChunk(w, lease);
  }

  lemma SliceOfChunk(w: World, lease: Lease)
    requires lease.slot < |w.pool.slots| && SlotHoldsChunk(w, lease.slot)
    requires var chunk := w.pool.slots[lease.slot].chunk;
      lease.source == chunk * w.pool.cfg.slotBytes + lease.at
      && lease.at + lease.length <= ChunkLength(w.pool.cfg, chunk)
      && chunk * w.pool.cfg.slotBytes + ChunkLength(w.pool.cfg, chunk) <= |w.source|
    ensures |Shown(w, lease)| == lease.length && Shown(w, lease) == SourceBytes(w, lease.source, lease.length)
  {
    hide ChunkLength;
    var start := w.pool.slots[lease.slot].chunk * w.pool.cfg.slotBytes;
    var length := ChunkLength(w.pool.cfg, w.pool.slots[lease.slot].chunk);
    SubSlice(w.mem, lease.slot * w.pool.cfg.slotBytes, w.source, start, length, lease.at, lease.length);
  }

  lemma SubSlice(a: seq<byte>, i: nat, b: seq<byte>, j: nat, n: nat, at: nat, length: nat)
    requires i + n <= |a| && j + n <= |b| && a[i..i + n] == b[j..j + n] && at + length <= n
    ensures a[i + at..i + at + length] == b[j + at..j + at + length]
  {
    var x, y := a[i + at..i + at + length], b[j + at..j + at + length];
    forall k | 0 <= k < length ensures x[k] == y[k] {
      assert a[i..i + n][at + k] == b[j..j + n][at + k];
    }
  }

  /** In every run, under every interleaving, a lease that resolve or try_resolve has returned shows
      exactly the source's bytes at its offset, for as long as it is held: whatever happens next, the
      bytes it shows do not change. */
  lemma LeasedBytes(cfg: Config, mem: seq<byte>, source: seq<byte>, es: seq<Event>, i: nat)
    requires Fits(cfg, mem, source) && i < |After(cfg, mem, source, es).held|
    ensures var w := After(cfg, mem, source, es);
      var lease := w.held[i];
      lease.source + lease.length <= |source| && Shown(w, lease) == source[lease.source..lease.source + lease.length]
    ensures forall more :: var w := After(cfg, mem, source, es);
      w.held[i] in Run(w, more).held ==> Shown(Run(w, more), w.held[i]) == Shown(w, w.held[i])
  {
    hide WorldOk, Shown;
    var w := After(cfg, mem, source, es);
    AfterOk(cfg, mem, source, es);
    ShownIsSource(w, i);
    forall more | w.held[i] in Run(w, more).held ensures Shown(Run(w, more), w.held[i]) == Shown(w, w.held[i]) {
      var w' := Run(w, more);
      var j :| 0 <= j < |w'.held| && w'.held[j] == w.held[i];
      RunOk(w, more);
      SourceFixed(w, more);
      ShownIsSource(w', j);
    }
  }

  /** No request the backend may still write for targets a slot that is ready, leased, or shared with
      another request: it has a filling slot to itself. */
  lemma NoWriterUnderLease(w: World, t: Token, u: Token, i: nat)
    requires WorldOk(w) && Outstanding(w, t) && Outstanding(w, u) && i < |w.held|
    ensures t.index < |w.pool.slots| && w.pool.slots[t.index].state.Filling?
    ensures w.held[i].slot != t.index && (t.index == u.index ==> t == u)
  {
    OwedRequest(w, t);
    OwedRequest(w, u);
    assert HeldOk(w.pool, w.held[i]);
  }

  // ----- accounting -----

  /** Requests accepted and not yet delivered. */
  function Owed(w: World): set<Token> { set t | t in w.pool.requests && t !in w.delivered }

  function FillingTokens(slots: seq<Slot>): set<Token> {
    if slots == [] then {}
    else
      var last := |slots| - 1;
      FillingTokens(slots[..last]) + if slots[last].state.Filling? then {Token(last, slots[last].generation)} else {}
  }

  lemma {:induction false} FillingTokensMeaning(slots: seq<Slot>)
    ensures forall t :: t in FillingTokens(slots) <==>
      t.index < |slots| && slots[t.index].state.Filling? && slots[t.index].generation == t.generation
    ensures |FillingTokens(slots)| == Sum(slots, FillingWeight)
  {
    if slots != [] {
      var last := |slots| - 1;
      FillingTokensMeaning(slots[..last]);
      assert Token(last, slots[last].generation) !in FillingTokens(slots[..last]);
      assert slots == slots[..last] + [slots[last]];
      SumAppend(slots[..last], [slots[last]], FillingWeight);
      SumOne(slots[last], FillingWeight);
    }
  }

  /** How many pins `leases` put on the first `n` slots. */
  function PinsBelow(leases: seq<Lease>, n: nat): int {
    if n == 0 then 0 else PinsBelow(leases, n - 1) + Sum(leases, OnSlot(n - 1))
  }

  lemma {:induction false} PinsBelowCount(leases: seq<Lease>, n: nat)
    requires forall i :: 0 <= i < |leases| ==> leases[i].slot < n
    ensures PinsBelow(leases, n) == |leases|
  {
    if leases == [] {
      PinsBelowEmpty(n);
    } else {
      PinsBelowCount(leases[1..], n);
      PinsBelowFirst(leases, n);
    }
  }

  lemma {:induction false} PinsBelowEmpty(n: nat)
    ensures PinsBelow([], n) == 0
  {
    if n > 0 {
      PinsBelowEmpty(n - 1);
    }
  }

  lemma {:induction false} PinsBelowFirst(leases: seq<Lease>, n: nat)
    requires leases != []
    ensures PinsBelow(leases, n) == PinsBelow(leases[1..], n) + if leases[0].slot < n then 1 else 0
  {
    if n > 0 {
      PinsBelowFirst(leases, n - 1);
    }
  }

  function WaitingPins(waiting: seq<seq<Lease>>): seq<Lease> {
    if waiting == [] then [] else waiting[0] + WaitingPins(waiting[1..])
  }

  lemma {:induction false} WaitingPinsOn(waiting: seq<seq<Lease>>, slot: nat)
    ensures Sum(WaitingPins(waiting), OnSlot(slot)) == Sum(waiting, CallWeight(slot))
  {
    if waiting != [] {
      WaitingPinsOn(waiting[1..], slot);
      SumAppend(waiting[0], WaitingPins(waiting[1..]), OnSlot(slot));
    }
  }

  lemma {:induction false} WaitingPinsIn(w: World, from: nat, i: nat)
    requires LeasesOk(w) && from <= |w.waiting| && i < |WaitingPins(w.waiting[from..])|
    ensures WaitingPins(w.waiting[from..])[i].slot < |w.pool.slots|
    decreases |w.waiting| - from
  {
    var rest := w.waiting[from..];
    assert rest[0] == w.waiting[from] && rest[1..] == w.waiting[from + 1..];
    if i < |rest[0]| {
      assert LeaseOk(w.pool, w.waiting[from][i]);
    } else {
      WaitingPinsIn(w, from + 1, i - |rest[0]|);
    }
  }

  lemma {:induction false} SlotPins(w: World, pins: seq<Lease>, n: nat)
    requires PinsMatch(w) && n <= |w.pool.slots| && pins == w.held + WaitingPins(w.waiting)
    ensures Sum(w.pool.slots[..n], PinWeight) == PinsBelow(pins, n)
  {
    if n > 0 {
      SlotPins(w, pins, n - 1);
      assert w.pool.slots[..n] == w.pool.slots[..n - 1] + [w.pool.slots[n - 1]];
      SumAppend(w.pool.slots[..n - 1], [w.pool.slots[n - 1]], PinWeight);
      SumOne(w.pool.slots[n - 1], PinWeight);
      SumAppend(w.held, WaitingPins(w.waiting), OnSlot(n - 1));
      WaitingPinsOn(w.waiting, n - 1);
    }
  }

  lemma OwedCount(w: World)
    requires Inv(w.pool) && OwedOk(w)
    ensures w.pool.inFlight == |Owed(w)|
  {
    FillingTokensMeaning(w.pool.slots);
    forall t ensures t in Owed(w) <==> t in FillingTokens(w.pool.slots) {
      assert Outstanding(w, t) <==> Current(w.pool, t);
    }
    assert Owed(w) == FillingTokens(w.pool.slots);
  }

  lemma PinCount(w: World)
    requires Inv(w.pool) && PinsMatch(w) && LeasesOk(w)
    ensures w.pool.pinsTotal == |w.held| + |WaitingPins(w.waiting)|
  {
    hide EntriesOk, TicketsOk, LogOk, LeaseOk, PinsMatch;
    var slots := w.pool.slots;
    var pins := w.held + WaitingPins(w.waiting);
    SlotPins(w, pins, |slots|);
    assert slots[..|slots|] == slots;
    forall i | 0 <= i < |pins| ensures pins[i].slot < |slots| {
      if i < |w.held| {
        HeldLease(w.pool, w.held[i]);
        LeaseInPool(w.pool, w.held[i]);
      } else {
        assert w.waiting[0..] == w.waiting;
        WaitingPinsIn(w, 0, i - |w.held|);
      }
    }
    PinsBelowCount(pins, |slots|);
  }

  /** The counters count: fills in flight are the requests the backend owes, pins are the leases held
      by callers and by waiting resolves, and no gauge exceeds the number of slots or goes below zero. */
  lemma Accounting(w: World)
    requires WorldOk(w)
    ensures w.pool.inFlight == |Owed(w)|
    ensures w.pool.pinsTotal == |w.held| + |WaitingPins(w.waiting)|
    ensures 0 <= w.pool.inFlight <= w.pool.nonFree <= w.pool.stats.highWater <= w.pool.cfg.numSlots
  {
    OwedCount(w);
    PinCount(w);
    FillingAtMostUsed(w.pool.slots);
  }

  /** After any run every hinted chunk has been counted once by what became of it, and every admitted hint is
      still flagged on its slot, or was counted as wasted once, or was consumed by a resolve once; and no
      chunk is live in two slots. */
  lemma Hints(cfg: Config, mem: seq<byte>, source: seq<byte>, es: seq<Event>)
    requires Fits(cfg, mem, source)
    ensures var p := After(cfg, mem, source, es).pool;
      && p.stats.hintIssued ==
           p.stats.hintResident + p.stats.hintAdmitted + p.stats.hintDeclined + p.stats.admissionFailures
      && p.stats.hintAdmitted == p.stats.hintUnconsumed + p.consumed + Sum(p.slots, HintWeight)
      && OnePerChunk(p.slots)
  {
    hide After;
    AfterOk(cfg, mem, source, es);
  }

  lemma {:induction false} FillingAtMostUsed(slots: seq<Slot>)
    ensures Sum(slots, FillingWeight) <= Sum(slots, UsedWeight)
  {
    if slots != [] {
      FillingAtMostUsed(slots[1..]);
    }
  }

  /** When nobody holds a lease or a ticket, no resolve waits and nothing is in flight, every slot is
      free or ready, and every ticket record can be issued again: nothing leaks. */
  lemma Quiescent(w: World, i: nat, r: nat)
    requires WorldOk(w) && w.held == [] && WaitingPins(w.waiting) == [] && w.pool.ticketsHeld == 0
    requires w.pool.inFlight == 0
    requires i < |w.pool.slots| && r < |w.pool.tickets|
    ensures w.pool.slots[i].pins == 0 && (w.pool.slots[i].state.Free? || w.pool.slots[i].state.Ready?)
    ensures !w.pool.tickets[r].inUse
  {
    WaitingPinsOn(w.waiting, i);
    SlotIsOk(w.pool, i);
    SumBounds(w.pool.slots, FillingWeight);
    assert FillingWeight(w.pool.slots[i]) <= 0;
    SumBounds(w.pool.tickets, HeldWeight);
    assert HeldWeight(w.pool.tickets[r]) <= 0;
    NothingLinked(w.pool, r);
    assert TicketOk(w.pool, r);
  }

  lemma NothingLinked(p: Pool, r: nat)
    requires Inv(p) && r < |p.tickets| && p.inFlight == 0
    ensures p.tickets[r].pending == 0
  {
    assert TicketOk(p, r);
    BlockInside(p.cfg, r);
    SumBounds(p.slots, FillingWeight);
    var block := Block(p.on, p.cfg, r);
    forall i | 0 <= i < |block| ensures LinkedWeight(block[i]) == 0 {
      var e := r * p.cfg.maxBatch + i;
      assert p.on[e] == block[i] && EntryOk(p, e);
      assert 0 <= p.on[e] < |p.slots| ==> FillingWeight(p.slots[p.on[e]]) <= 0;
    }
    SumBounds(block, LinkedWeight);
  }
}
