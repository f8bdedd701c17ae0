/** What every critical section of SlotPool keeps: one live slot per chunk, counters equal to what they
    count, tickets whose pending count is the number of their linked entries, and hint conservation. */
module PoolInvariant {
  import opened Transfer
  import opened Products
  import opened Sums
  import opened PoolState
  import opened ClockSweep
  import opened PoolModel

  // ----- the invariant -----

  function FillingWeight(s: Slot): int { if s.state.Filling? then 1 else 0 }
  function PinWeight(s: Slot): int { s.pins }
  function UsedWeight(s: Slot): int { if s.state.Free? then 0 else 1 }
  function HintWeight(s: Slot): int { if s.hintUnconsumed then 1 else 0 }
  function HeldWeight(t: TicketRecord): int { if t.held then 1 else 0 }

  predicate SlotOk(cfg: Config, s: Slot) {
    && 0 <= s.pins
    && (s.state.Free? ==> s.pins == 0 && !s.referenced)
    && (s.state.Failed? ==> 0 < s.pins && s.failure != Ok && s.failure != Pending)
    && (s.hintUnconsumed ==> s.Live())
    && (s.Live() ==> s.chunk * cfg.slotBytes < cfg.sourceBytes)
  }

  predicate SlotsOk(p: Pool) { forall i :: 0 <= i < |p.slots| ==> SlotOk(p.cfg, p.slots[i]) }

  /** At most one live slot, hence at most one live fill, per chunk. */
  predicate OnePerChunk(slots: seq<Slot>) {
    forall i, j :: 0 <= i < j < |slots| && slots[i].Live() && slots[j].Live() ==> slots[i].chunk != slots[j].chunk
  }

  predicate Counted(p: Pool) {
    && p.inFlight == Sum(p.slots, FillingWeight)
    && p.pinsTotal == Sum(p.slots, PinWeight)
    && p.nonFree == Sum(p.slots, UsedWeight)
    && p.nonFree <= p.stats.highWater <= p.cfg.numSlots
  }

  /** Every hinted chunk is counted once by what became of the hint, and every admitted hint is either
      still flagged, or was counted unconsumed once, or was consumed by a resolve once. */
  predicate HintsConserved(p: Pool) {
    && p.stats.hintIssued ==
         p.stats.hintResident + p.stats.hintAdmitted + p.stats.hintDeclined + p.stats.admissionFailures
    && p.stats.hintAdmitted == p.stats.hintUnconsumed + p.consumed + Sum(p.slots, HintWeight)
  }

  /** The record that owns entry `e`: the source's `entry / max_batch_chunks`. */
  function Owner(cfg: Config, e: nat): (r: nat)
    requires cfg.Valid() && e < cfg.maxTickets * cfg.maxBatch
    ensures r < cfg.maxTickets && r * cfg.maxBatch <= e < r * cfg.maxBatch + cfg.maxBatch
  {
    DivBounds(e, cfg.maxBatch, e / cfg.maxBatch);
    DivBounds(e, cfg.maxBatch, cfg.maxTickets);
    e / cfg.maxBatch
  }

  predicate InFlight(p: Pool, slot: int) { 0 <= slot < |p.slots| && p.slots[slot].state.Filling? }

  predicate EntryOk(p: Pool, e: nat)
    requires Shaped(p) && e < |p.on|
  {
    var r := Owner(p.cfg, e);
    p.on[e] == NONE ||
    (InFlight(p, p.on[e]) && p.outcomes[e] == Pending && e - r * p.cfg.maxBatch < p.tickets[r].chunks)
  }

  predicate EntriesOk(p: Pool)
    requires Shaped(p)
  {
    forall e :: 0 <= e < |p.on| ==> EntryOk(p, e)
  }

  predicate TicketOk(p: Pool, r: nat)
    requires Shaped(p) && r < |p.tickets|
  {
    var t := p.tickets[r];
    t.pending == Linked(p.on, p.cfg, r) && t.chunks <= p.cfg.maxBatch && (t.inUse <==> t.held || 0 < t.pending)
  }

  predicate TicketsOk(p: Pool)
    requires Shaped(p)
  {
    && p.ticketsHeld == Sum(p.tickets, HeldWeight)
    && forall r :: 0 <= r < |p.tickets| ==> TicketOk(p, r)
  }

  predicate SlotSide(p: Pool) { SlotsOk(p) && OnePerChunk(p.slots) && Counted(p) && HintsConserved(p) }

  /** Accepted requests name past or present fills, and each fill in flight is one of them. */
  predicate LogOk(p: Pool) {
    && (forall t :: t in p.requests ==> t.index < |p.slots| && t.generation <= p.slots[t.index].generation)
    && forall i :: 0 <= i < |p.slots| && p.slots[i].state.Filling? ==> Logged(p, i)
  }

  predicate Logged(p: Pool, i: nat)
    requires i < |p.slots|
  {
    var s := p.slots[i];
    var token := Token(i, s.generation);
    token in p.requests && p.requests[token] == RequestFor(p.cfg, i, s.generation, s.chunk)
  }

  predicate Inv(p: Pool) { Shaped(p) && SlotSide(p) && EntriesOk(p) && TicketsOk(p) && LogOk(p) }

  /** An entry of an issued ticket whose outcome is pending is linked to the fill it awaits. */
  predicate EntryAwaits(p: Pool, e: nat)
    requires Shaped(p) && e < |p.on|
  {
    var r := Owner(p.cfg, e);
    e - r * p.cfg.maxBatch < p.tickets[r].chunks && p.outcomes[e] == Pending ==> p.on[e] != NONE
  }

  /** Together with Inv: the linked entries are exactly those whose outcome is pending. */
  predicate PendingLinked(p: Pool)
    requires Shaped(p)
  {
    forall e :: 0 <= e < |p.on| ==> EntryAwaits(p, e)
  }

  // ----- sums after one update -----

  lemma SlotSums(slots: seq<Slot>, i: nat, s: Slot)
    requires i < |slots|
    ensures Sum(slots[i := s], FillingWeight) == Sum(slots, FillingWeight) - FillingWeight(slots[i]) + FillingWeight(s)
    ensures Sum(slots[i := s], PinWeight) == Sum(slots, PinWeight) - PinWeight(slots[i]) + PinWeight(s)
    ensures Sum(slots[i := s], UsedWeight) == Sum(slots, UsedWeight) - UsedWeight(slots[i]) + UsedWeight(s)
    ensures Sum(slots[i := s], HintWeight) == Sum(slots, HintWeight) - HintWeight(slots[i]) + HintWeight(s)
  {
    SumUpdate(slots, i, s, FillingWeight);
    SumUpdate(slots, i, s, PinWeight);
    SumUpdate(slots, i, s, UsedWeight);
    SumUpdate(slots, i, s, HintWeight);
  }

  lemma OwnerBlock(cfg: Config, e: nat, r: nat)
    requires cfg.Valid() && e < cfg.maxTickets * cfg.maxBatch && r < cfg.maxTickets
    ensures Owner(cfg, e) == r <==> r * cfg.maxBatch <= e < r * cfg.maxBatch + cfg.maxBatch
  {
    DivBounds(e, cfg.maxBatch, r);
  }

  lemma LinkedUpdate(on: seq<int>, cfg: Config, r: nat, e: nat, slot: int)
    requires cfg.Valid() && r < cfg.maxTickets && e < |on| == cfg.maxTickets * cfg.maxBatch
    ensures Linked(on[e := slot], cfg, r) ==
      Linked(on, cfg, r) + if Owner(cfg, e) == r then LinkedWeight(slot) - LinkedWeight(on[e]) else 0
  {
    OwnerBlock(cfg, e, r);
    BlockInside(cfg, r);
    var base := r * cfg.maxBatch;
    if Owner(cfg, e) == r {
      assert Block(on[e := slot], cfg, r) == Block(on, cfg, r)[e - base := slot];
      SumUpdate(Block(on, cfg, r), e - base, slot, LinkedWeight);
    } else {
      assert Block(on[e := slot], cfg, r) == Block(on, cfg, r);
    }
  }

  lemma NoneLinked(p: Pool, r: nat, e: nat)
    requires Shaped(p) && r < |p.tickets| && e < |p.on| && Owner(p.cfg, e) == r && Linked(p.on, p.cfg, r) == 0
    ensures p.on[e] == NONE
  {
    BlockInside(p.cfg, r);
    var block := Block(p.on, p.cfg, r);
    SumBounds(block, LinkedWeight);
    assert p.on[e] == block[e - r * p.cfg.maxBatch];
    assert LinkedWeight(block[e - r * p.cfg.maxBatch]) <= 0;
  }

  // ----- creation -----

  lemma CreateInv(cfg: Config)
    requires cfg.Valid()
    ensures Inv(Create(cfg))
  {
    var p := Create(cfg);
    SumBounds(p.slots, FillingWeight);
    SumBounds(p.slots, PinWeight);
    SumBounds(p.slots, UsedWeight);
    SumBounds(p.slots, HintWeight);
    SumBounds(p.tickets, HeldWeight);
    forall r | 0 <= r < |p.tickets| ensures TicketOk(p, r) {
      BlockInside(cfg, r);
      SumBounds(Block(p.on, cfg, r), LinkedWeight);
    }
  }

  // ----- one slot changes -----

  /** Tickets survive any change to the slots that leaves the awaited fills in flight. */
  lemma TicketsFrame(p: Pool, q: Pool)
    requires Shaped(p) && EntriesOk(p) && TicketsOk(p) && SameTickets(p, q)
    requires forall e :: 0 <= e < |p.on| && p.on[e] != NONE ==> InFlight(q, p.on[e])
    ensures EntriesOk(q) && TicketsOk(q)
    ensures PendingLinked(p) ==> PendingLinked(q)
  {
    forall e | 0 <= e < |q.on| ensures EntryOk(q, e) { assert EntryOk(p, e); }
    forall r | 0 <= r < |q.tickets| ensures TicketOk(q, r) { assert TicketOk(p, r); }
    if PendingLinked(p) {
      forall e | 0 <= e < |q.on| ensures EntryAwaits(q, e) { assert EntryAwaits(p, e); }
    }
  }

  /** The log survives any change that starts no fill and moves no generation back. */
  lemma LogFrame(p: Pool, q: Pool)
    requires LogOk(p) && q.cfg == p.cfg && q.requests == p.requests && |q.slots| == |p.slots|
    requires forall i :: 0 <= i < |p.slots| ==> p.slots[i].generation <= q.slots[i].generation
    requires forall i :: 0 <= i < |p.slots| && q.slots[i].state.Filling? ==>
      p.slots[i].state.Filling? && q.slots[i].generation == p.slots[i].generation
          && q.slots[i].chunk == p.slots[i].chunk
    ensures LogOk(q)
  {
    forall i | 0 <= i < |q.slots| && q.slots[i].state.Filling? ensures Logged(q, i) { assert Logged(p, i); }
  }

  /** The counters of `q` differ from those of `p` as slot `before` turning into `s` demands. */
  predicate CountersMove(p: Pool, q: Pool, before: Slot, s: Slot) {
    && q.inFlight - p.inFlight == FillingWeight(s) - FillingWeight(before)
    && q.pinsTotal - p.pinsTotal == s.pins - before.pins
    && q.nonFree - p.nonFree == UsedWeight(s) - UsedWeight(before)
    && q.nonFree <= q.stats.highWater <= p.cfg.numSlots
    && q.stats.hintIssued - p.stats.hintIssued ==
         (q.stats.hintResident + q.stats.hintAdmitted + q.stats.hintDeclined + q.stats.admissionFailures)
         - (p.stats.hintResident + p.stats.hintAdmitted + p.stats.hintDeclined + p.stats.admissionFailures)
    && q.stats.hintAdmitted - p.stats.hintAdmitted ==
         (q.stats.hintUnconsumed + q.consumed) - (p.stats.hintUnconsumed + p.consumed)
         + HintWeight(s) - HintWeight(before)
  }

  /** If slot `i` of `p` becomes `s`, with the counters moved to match, the slot side is kept. */
  lemma SlotChange(p: Pool, i: nat, s: Slot, q: Pool)
    requires Shaped(p) && SlotSide(p) && i < |p.slots| && SlotOk(p.cfg, s)
    requires s.Live() ==> forall j :: 0 <= j < |p.slots| && j != i && p.slots[j].Live() ==> p.slots[j].chunk != s.chunk
    requires q.cfg == p.cfg && q.slots == p.slots[i := s] && CountersMove(p, q, p.slots[i], s)
    ensures SlotSide(q)
  {
    SlotSums(p.slots, i, s);
  }

  /** A change to one slot that no linked entry awaits, or that stays filling, keeps the invariant. */
  lemma SlotChangeInv(p: Pool, i: nat, s: Slot, q: Pool)
    requires Inv(p) && i < |p.slots| && SlotOk(p.cfg, s)
    requires s.Live() ==> forall j :: 0 <= j < |p.slots| && j != i && p.slots[j].Live() ==> p.slots[j].chunk != s.chunk
    requires s.state.Filling? || !p.slots[i].state.Filling? || forall e :: 0 <= e < |p.on| ==> p.on[e] != i
    requires SameTickets(p, q) && q.slots == p.slots[i := s] && CountersMove(p, q, p.slots[i], s)
    requires LogOk(q)
    ensures Inv(q)
    ensures PendingLinked(p) ==> PendingLinked(q)
  {
    SlotChange(p, i, s, q);
    forall e | 0 <= e < |p.on| && p.on[e] != NONE ensures InFlight(q, p.on[e]) { assert EntryOk(p, e); }
    TicketsFrame(p, q);
  }

  /** The same for a change that starts no fill. */
  lemma QuietSlotChangeInv(p: Pool, i: nat, s: Slot, q: Pool)
    requires Inv(p) && i < |p.slots| && SlotOk(p.cfg, s)
    requires s.Live() ==> p.slots[i].Live() && s.chunk == p.slots[i].chunk
    requires s.generation == p.slots[i].generation
    requires if s.state.Filling? then p.slots[i].state.Filling?
             else p.slots[i].state.Filling? ==> forall e :: 0 <= e < |p.on| ==> p.on[e] != i
    requires SameTickets(p, q) && q.slots == p.slots[i := s] && CountersMove(p, q, p.slots[i], s)
    requires q.requests == p.requests
    ensures Inv(q)
    ensures PendingLinked(p) ==> PendingLinked(q)
  {
    LogFrame(p, q);
    SlotChangeInv(p, i, s, q);
  }

  /** Statistics outside the counted ones may change freely. */
  lemma StatsInv(p: Pool, q: Pool)
    requires Inv(p) && q == p.(stats := q.stats)
    requires q.stats.highWater == p.stats.highWater && HintsConserved(q)
    ensures Inv(q)
    ensures PendingLinked(p) ==> PendingLinked(q)
  {
    forall e | 0 <= e < |p.on| && p.on[e] != NONE ensures InFlight(q, p.on[e]) { assert EntryOk(p, e); }
    TicketsFrame(p, q);
    LogFrame(p, q);
  }

  // ----- the sweep -----

  /** A slot a sweep passed over: at most the reference bit of an unpinned ready slot is gone. */
  predicate Aged(a: Slot, b: Slot) { b == a || (Evictable(a) && b == a.(referenced := false)) }

  /** What a claim leaves: the victim free, every other slot at most aged, tickets untouched. */
  predicate ClaimEffect(p: Pool, q: Pool, victim: int) {
    && SameTickets(p, q) && |q.slots| == |p.slots|
    && q.inFlight == p.inFlight && q.pinsTotal == p.pinsTotal && q.consumed == p.consumed && q.requests == p.requests
    && (forall i :: 0 <= i < |p.slots| && i != victim ==> Aged(p.slots[i], q.slots[i]))
    && (victim == NONE ||
        (0 <= victim < |p.slots| && p.slots[victim].pins == 0
         && (p.slots[victim].state.Free? || p.slots[victim].state.Ready?)
         && q.slots[victim] == p.slots[victim].(state := Free, referenced := false, hintUnconsumed := false)))
    && q.stats == p.stats.(evictions := q.stats.evictions, hintUnconsumed := q.stats.hintUnconsumed)
  }

  predicate SameButBit(a: Slot, b: Slot) { b == a || (!a.state.Free? && b == a.(referenced := b.referenced)) }

  /** Reference bits of used slots, and the hand, are free to move. */
  lemma BitsInv(p: Pool, q: Pool)
    requires Inv(p) && |q.slots| == |p.slots| && q == p.(slots := q.slots, hand := q.hand) && q.hand < |p.slots|
    requires forall i :: 0 <= i < |p.slots| ==> SameButBit(p.slots[i], q.slots[i])
    ensures Inv(q)
    ensures PendingLinked(p) ==> PendingLinked(q)
  {
    SumSame(p.slots, q.slots, FillingWeight);
    SumSame(p.slots, q.slots, PinWeight);
    SumSame(p.slots, q.slots, UsedWeight);
    SumSame(p.slots, q.slots, HintWeight);
    forall e | 0 <= e < |p.on| && p.on[e] != NONE ensures InFlight(q, p.on[e]) { assert EntryOk(p, e); }
    TicketsFrame(p, q);
    LogFrame(p, q);
  }

  lemma EvictInv(p: Pool, slot: nat)
    requires Inv(p) && slot < |p.slots| && Evictable(p.slots[slot])
    ensures var q := MakeFree(p.(stats := Evicted(p.stats, p.slots[slot].hintUnconsumed)), slot);
      Inv(q) && (PendingLinked(p) ==> PendingLinked(q))
  {
    var q := MakeFree(p.(stats := Evicted(p.stats, p.slots[slot].hintUnconsumed)), slot);
    QuietSlotChangeInv(p, slot, q.slots[slot], q);
  }

  lemma ClaimInv(p: Pool, admission: AdmissionClass)
    requires Inv(p)
    ensures var (q, victim) := Claim(p, admission);
      Inv(q) && (PendingLinked(p) ==> PendingLinked(q)) && ClaimEffect(p, q, victim)
    ensures var (q, victim) := Claim(p, admission);
      HandMoved(p.hand, q.hand, victim, admission, |p.slots|)
  {
    hide Sweep, ClearBits, OnePerChunk, Counted, HintsConserved, EntriesOk, TicketsOk, LogOk, PendingLinked, HandMoved;
    var o := Sweep(p.slots, p.hand, admission);
    SweepChoice(p.slots, p.hand, admission);
    SweepHand(p.slots, p.hand, admission);
    var aged := p.(slots := ClearBits(p.slots, p.hand, o.cleared), hand := o.hand);
    assert forall i :: 0 <= i < |p.slots| ==> SameButBit(p.slots[i], aged.slots[i]);
    BitsInv(p, aged);
    if o.slot != NONE && !aged.slots[o.slot].state.Free? {
      EvictInv(aged, o.slot);
    }
  }

  lemma ClaimKeepsMiss(p: Pool, q: Pool, victim: int, chunk: nat)
    requires ClaimEffect(p, q, victim) && Lookup(p.slots, chunk) == NONE
    ensures Lookup(q.slots, chunk) == NONE
  {
    forall i | 0 <= i < |q.slots| && q.slots[i].Live() ensures q.slots[i].chunk != chunk {
      assert Aged(p.slots[i], q.slots[i]);
    }
  }

  // ----- starting a fill -----

  lemma StartFillInv(p: Pool, slot: nat, chunk: nat, accepted: bool)
    requires Inv(p) && slot < |p.slots| && p.slots[slot].state.Free?
    requires Lookup(p.slots, chunk) == NONE && chunk * p.cfg.slotBytes < p.cfg.sourceBytes
    ensures var (q, status) := StartFill(p, slot, chunk, accepted);
      && Inv(q) && (PendingLinked(p) ==> PendingLinked(q)) && SameTickets(p, q)
      && status == (if accepted then Ok else QueueExhausted)
      && (forall i :: 0 <= i < |p.slots| && i != slot ==> q.slots[i] == p.slots[i])
      && q.slots[slot].chunk == chunk && q.slots[slot].generation == p.slots[slot].generation + 1
      && q.slots[slot].pins == 0 && !q.slots[slot].hintUnconsumed && q.slots[slot].failure == Ok
      && q.slots[slot].state == (if accepted then Filling else Free)
  {
    hide EntriesOk, TicketsOk, PendingLinked, OnePerChunk, Sum;
    var (q, _) := StartFill(p, slot, chunk, accepted);
    FreeRoom(p, slot);
    if accepted {
      assert LogOk(q) by {
        forall i | 0 <= i < |q.slots| && q.slots[i].state.Filling? ensures Logged(q, i) {
          assert i == slot || Logged(p, i);
        }
      }
      SlotChangeInv(p, slot, q.slots[slot], q);
    } else {
      assert q.slots == p.slots[slot := q.slots[slot]];
      LogFrame(p, q);
      SlotChangeInv(p, slot, q.slots[slot], q);
    }
  }

  lemma FreeRoom(p: Pool, slot: nat)
    requires Inv(p) && slot < |p.slots| && p.slots[slot].state.Free?
    ensures p.nonFree < p.cfg.numSlots
  {
    var used := p.slots[slot := p.slots[slot].(state := Ready)];
    SumUpdate(p.slots, slot, used[slot], UsedWeight);
    SumBounds(used, UsedWeight);
  }

  // ----- tickets -----

  /** Record `r` is being filled in: its entries before `done` are recorded, the rest are unlinked. */
  predicate Midway(p: Pool, r: nat, done: nat)
    requires Shaped(p) && r < |p.tickets|
  {
    && p.tickets[r].held && done <= p.tickets[r].chunks
    && forall e :: 0 <= e < |p.on| ==> EntryMidway(p, r, done, e)
  }

  predicate EntryMidway(p: Pool, r: nat, done: nat, e: nat)
    requires Shaped(p) && r < |p.tickets| && e < |p.on|
  {
    if Owner(p.cfg, e) == r && r * p.cfg.maxBatch + done <= e then p.on[e] == NONE else EntryAwaits(p, e)
  }

  lemma MidwayFrame(p: Pool, q: Pool, r: nat, done: nat)
    requires Shaped(p) && SameTickets(p, q) && r < |p.tickets| && Midway(p, r, done)
    ensures Midway(q, r, done)
  {
    forall e | 0 <= e < |q.on| ensures EntryMidway(q, r, done, e) { assert EntryMidway(p, r, done, e); }
  }

  lemma SettledInv(p: Pool, r: nat, i: nat, outcome: Status)
    requires Inv(p) && r < |p.tickets| && i < p.tickets[r].chunks && Midway(p, r, i) && outcome != Pending
    ensures var e := r * p.cfg.maxBatch + i;
      e < |p.on| && Inv(Settled(p, e, outcome)) && Midway(Settled(p, e, outcome), r, i + 1)
  {
    assert TicketOk(p, r);
    EntryInBlock(p.cfg, r, i);
    var e := r * p.cfg.maxBatch + i;
    assert EntryMidway(p, r, i, e);
    var q := Settled(p, e, outcome);
    assert q.on == p.on;
    forall f | 0 <= f < |q.on| ensures EntryOk(q, f) { assert EntryOk(p, f); }
    forall t | 0 <= t < |q.tickets| ensures TicketOk(q, t) { assert TicketOk(p, t); }
    var done := i + 1;
    forall f | 0 <= f < |q.on| ensures EntryMidway(q, r, done, f) { assert EntryMidway(p, r, i, f); }
  }

  lemma SlotSideFrame(p: Pool, q: Pool)
    requires SlotSide(p) && LogOk(p)
    requires q == p.(outcomes := q.outcomes, on := q.on, tickets := q.tickets, ticketsHeld := q.ticketsHeld)
    ensures SlotSide(q) && LogOk(q)
  {
    forall i | 0 <= i < |q.slots| && q.slots[i].state.Filling? ensures Logged(q, i) { assert Logged(p, i); }
  }

  lemma LinkedBounds(on: seq<int>, cfg: Config, r: nat)
    requires r < cfg.maxTickets && |on| == cfg.maxTickets * cfg.maxBatch
    ensures 0 <= Linked(on, cfg, r)
  {
    SumBounds(Block(on, cfg, r), LinkedWeight);
  }

  lemma JoinInv(p: Pool, r: nat, i: nat, slot: nat)
    requires Inv(p) && r < |p.tickets| && i < p.tickets[r].chunks && Midway(p, r, i) && InFlight(p, slot)
    ensures var e := r * p.cfg.maxBatch + i;
      e < |p.on| && Inv(Join(p, r, e, slot)) && Midway(Join(p, r, e, slot), r, i + 1)
  {
    hide SlotSide, LogOk, Linked;
    assert TicketOk(p, r);
    EntryInBlock(p.cfg, r, i);
    var e := r * p.cfg.maxBatch + i;
    assert EntryMidway(p, r, i, e);
    var q := Join(p, r, e, slot);
    SlotSideFrame(p, q);
    SumUpdate(p.tickets, r, q.tickets[r], HeldWeight);
    forall f | 0 <= f < |q.on| ensures EntryOk(q, f) { assert EntryOk(p, f); }
    forall t | 0 <= t < |q.tickets| ensures TicketOk(q, t) {
      assert TicketOk(p, t);
      LinkedUpdate(p.on, p.cfg, t, e, slot);
      LinkedBounds(p.on, p.cfg, t);
    }
    var done := i + 1;
    forall f | 0 <= f < |q.on| ensures EntryMidway(q, r, done, f) { assert EntryMidway(p, r, i, f); }
  }
}
