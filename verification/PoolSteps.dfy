/** The critical sections of SlotPool keep the invariant, and move each slot only as its state machine
    allows: no section but the backend's delivery ends a fill, and none reclaims a pinned slot. */
module PoolSteps {
  import opened Transfer
  import opened Products
  import opened Sums
  import opened PoolState
  import opened ClockSweep
  import opened ChunkTiling
  import opened PoolModel
  import opened PoolInvariant

  // ----- what may happen to a slot while no fill ends and no pin is dropped -----

  predicate Forward(a: Slot, b: Slot) {
    && a.generation <= b.generation && a.pins <= b.pins
    && (a.generation == b.generation ==> a.chunk == b.chunk)
    && (a.state.Filling? ==> b.state.Filling? && a.generation == b.generation)
    && (a.state.Failed? ==> b.state.Failed? && a.generation == b.generation && a.failure == b.failure)
    && (b.state.Failed? ==> a.state.Failed?)
    && (b.state.Ready? ==> a.state.Ready? && a.generation == b.generation)
    && (a.state.Ready? && 0 < a.pins ==> b.state.Ready?)
    && (b.state.Filling? && !a.state.Filling? ==> a.generation < b.generation)
  }

  /** Slots move forward only, and each request the backend accepted meanwhile is still in flight. */
  predicate Advances(p: Pool, q: Pool) {
    && q.cfg == p.cfg && |q.slots| == |p.slots|
    && (forall i :: 0 <= i < |p.slots| ==> Forward(p.slots[i], q.slots[i]))
    && (forall t :: t in p.requests ==> t in q.requests && q.requests[t] == p.requests[t])
    && (forall t :: t in q.requests && t !in p.requests ==> Current(q, t))
  }

  /** The relation under which a waiting resolve's pins are stable is transitive. */
  lemma AdvancesTransitive(p: Pool, q: Pool, r: Pool)
    requires Advances(p, q) && Advances(q, r)
    ensures Advances(p, r)
  {
    forall i | 0 <= i < |p.slots| ensures Forward(p.slots[i], r.slots[i]) {
      assert Forward(p.slots[i], q.slots[i]) && Forward(q.slots[i], r.slots[i]);
    }
    forall t | t in r.requests && t !in p.requests ensures Current(r, t) {
      if t in q.requests {
        assert Current(q, t) && Forward(q.slots[t.index], r.slots[t.index]);
      }
    }
  }

  predicate SamePins(p: Pool, q: Pool) {
    |q.slots| == |p.slots| && forall i :: 0 <= i < |p.slots| ==> q.slots[i].pins == p.slots[i].pins
  }

  predicate Kept(p: Pool, q: Pool) { Inv(q) && Advances(p, q) && SamePins(p, q) }

  lemma KeptSlots(p: Pool, q: Pool)
    requires Inv(p) && Inv(q) && q.cfg == p.cfg && q.slots == p.slots && q.requests == p.requests
    ensures Kept(p, q)
  {
  }

  lemma KeptTransitive(p: Pool, q: Pool, r: Pool)
    requires Kept(p, q) && Kept(q, r)
    ensures Kept(p, r)
  {
    AdvancesTransitive(p, q, r);
  }

  lemma ClaimAdvances(p: Pool, q: Pool, victim: int)
    requires Inv(p) && ClaimEffect(p, q, victim)
    ensures Advances(p, q) && SamePins(p, q)
  {
    forall i | 0 <= i < |p.slots| ensures Forward(p.slots[i], q.slots[i]) && q.slots[i].pins == p.slots[i].pins {
      assert i == victim || Aged(p.slots[i], q.slots[i]);
      assert SlotOk(p.cfg, p.slots[i]);
    }
  }

  lemma StartFillAdvances(p: Pool, slot: nat, chunk: nat, accepted: bool)
    requires Inv(p) && slot < |p.slots| && p.slots[slot].state.Free?
    requires Lookup(p.slots, chunk) == NONE && chunk * p.cfg.slotBytes < p.cfg.sourceBytes
    ensures Kept(p, StartFill(p, slot, chunk, accepted).0)
  {
    hide EntriesOk, TicketsOk, PendingLinked, OnePerChunk, Counted, HintsConserved;
    StartFillInv(p, slot, chunk, accepted);
    assert SlotOk(p.cfg, p.slots[slot]);
  }

  /** No slot can be reclaimed: each is pinned or being filled. */
  predicate Exhausted(p: Pool) { forall i :: 0 <= i < |p.slots| ==> 0 < p.slots[i].pins || p.slots[i].state.Filling? }

  lemma ClaimExhausted(p: Pool)
    requires Inv(p) && Claim(p, Declared).1 == NONE && CountsTwice(p.cfg.numSlots)
    ensures Exhausted(Claim(p, Declared).0)
  {
    hide EntriesOk, TicketsOk, LogOk, OnePerChunk, Counted, HintsConserved;
    ClaimInv(p, Declared);
    SweepChoice(p.slots, p.hand, Declared);
    var q := Claim(p, Declared).0;
    forall i | 0 <= i < |q.slots| ensures 0 < q.slots[i].pins || q.slots[i].state.Filling? {
      assert Aged(p.slots[i], q.slots[i]) && SlotOk(p.cfg, p.slots[i]);
    }
  }

  lemma FreeIsReclaimable(p: Pool, slot: nat)
    requires slot < |p.slots| && p.slots[slot].pins == 0 && p.slots[slot].state.Free?
    ensures !Exhausted(p)
  {
  }

  /** A claim and the fill it makes room for, as one step. */
  lemma MissAdvances(p: Pool, chunk: nat, admission: AdmissionClass, accepted: bool)
    requires Inv(p) && Lookup(p.slots, chunk) == NONE && chunk * p.cfg.slotBytes < p.cfg.sourceBytes
    ensures var (q, victim) := Claim(p, admission);
      && Kept(p, q) && SameTickets(p, q)
      && (victim == NONE && admission.Declared? && CountsTwice(p.cfg.numSlots) ==> Exhausted(q))
      && (victim != NONE ==> q.slots[victim].pins == 0)
      && (victim != NONE ==>
            var (r, status) := StartFill(q, victim, chunk, accepted);
            && Kept(p, r) && SameTickets(p, r)
            && status == (if accepted then Ok else QueueExhausted)
            && r.slots[victim].pins == 0 && !r.slots[victim].hintUnconsumed && (status != Ok ==> !Exhausted(r))
            && (status == Ok ==> InFlight(r, victim) && r.slots[victim].chunk == chunk))
  {
    ClaimInv(p, admission);
    var (q, victim) := Claim(p, admission);
    ClaimAdvances(p, q, victim);
    ClaimKeepsMiss(p, q, victim, chunk);
    if victim == NONE && admission.Declared? && CountsTwice(p.cfg.numSlots) {
      ClaimExhausted(p);
    }
    if victim != NONE {
      StartFillInv(q, victim, chunk, accepted);
      if !accepted {
        FreeIsReclaimable(StartFill(q, victim, chunk, accepted).0, victim);
      }
      StartFillAdvances(q, victim, chunk, accepted);
      KeptTransitive(p, q, StartFill(q, victim, chunk, accepted).0);
    }
  }

  // ----- prefetch -----

  lemma AdmitInv(p: Pool, slot: nat)
    requires Inv(p) && slot < |p.slots| && p.slots[slot].state.Filling? && !p.slots[slot].hintUnconsumed
    ensures Kept(p, Admit(p, slot)) && SameTickets(p, Admit(p, slot)) && InFlight(Admit(p, slot), slot)
  {
    assert SlotOk(p.cfg, p.slots[slot]);
    QuietSlotChangeInv(p, slot, Admit(p, slot).slots[slot], Admit(p, slot));
  }

  /** Recording an outcome, or joining a fill, after a step that left the tickets alone. */
  lemma SettledStep(p: Pool, filled: Pool, q: Pool, r: nat, i: nat, outcome: Status)
    requires Shaped(p) && r < |p.tickets| && i < p.tickets[r].chunks && Midway(p, r, i) && outcome != Pending
    requires Kept(p, filled) && SameTickets(p, filled)
    requires q == filled.(stats := q.stats) && q.stats.highWater == filled.stats.highWater && HintsConserved(q)
    ensures var e := r * p.cfg.maxBatch + i;
      && e < |p.on|
      && var q' := Settled(q, e, outcome);
         && Kept(p, q') && Midway(q', r, i + 1) && q'.tickets[r].chunks == p.tickets[r].chunks
         && q'.tickets[r].generation == p.tickets[r].generation
  {
    hide SlotsOk, OnePerChunk, Counted, EntriesOk, TicketsOk, LogOk, PendingLinked, Midway, Advances, SamePins;
    var e := r * p.cfg.maxBatch + i;
    StatsInv(filled, q);
    MidwayFrame(p, q, r, i);
    SettledInv(q, r, i, outcome);
    KeptSlots(filled, Settled(q, e, outcome));
    KeptTransitive(p, filled, Settled(q, e, outcome));
  }

  lemma JoinStep(p: Pool, filled: Pool, q: Pool, r: nat, i: nat, slot: nat)
    requires Shaped(p) && r < |p.tickets| && i < p.tickets[r].chunks && Midway(p, r, i)
    requires Kept(p, filled) && SameTickets(p, filled) && InFlight(filled, slot)
    requires q == filled.(stats := q.stats) && q.stats.highWater == filled.stats.highWater && HintsConserved(q)
    ensures var e := r * p.cfg.maxBatch + i;
      && e < |p.on|
      && var q' := Join(q, r, e, slot);
         && Kept(p, q') && Midway(q', r, i + 1) && q'.tickets[r].chunks == p.tickets[r].chunks
         && q'.tickets[r].generation == p.tickets[r].generation
  {
    hide SlotsOk, OnePerChunk, Counted, EntriesOk, TicketsOk, LogOk, PendingLinked, Midway, Advances, SamePins;
    var e := r * p.cfg.maxBatch + i;
    StatsInv(filled, q);
    MidwayFrame(p, q, r, i);
    JoinInv(q, r, i, slot);
    KeptSlots(filled, Join(q, r, e, slot));
    KeptTransitive(p, filled, Join(q, r, e, slot));
  }

  lemma PrefetchChunkInv(p: Pool, r: nat, i: nat, chunk: nat, admission: AdmissionClass, accepted: bool)
    requires Inv(p) && r < |p.tickets| && i < p.tickets[r].chunks && Midway(p, r, i)
    requires chunk * p.cfg.slotBytes < p.cfg.sourceBytes
    ensures var e := r * p.cfg.maxBatch + i;
      && e < |p.on|
      && var q := PrefetchChunk(p, r, e, chunk, admission, accepted);
         && Kept(p, q) && Midway(q, r, i + 1) && q.tickets[r].chunks == p.tickets[r].chunks
         && q.tickets[r].generation == p.tickets[r].generation
  {
    assert TicketOk(p, r);
    EntryInBlock(p.cfg, r, i);
    KeptSlots(p, p);
    var slot := Lookup(p.slots, chunk);
    if slot != NONE && p.slots[slot].state.Ready? {
      SettledStep(p, p, p.(stats := Resident(p.stats)), r, i, Ok);
    } else if slot != NONE {
      JoinStep(p, p, p.(stats := Coalesced(Resident(p.stats))), r, i, slot);
    } else {
      PrefetchMissInv(p, r, i, chunk, admission, accepted);
    }
  }

  lemma PrefetchMissInv(p: Pool, r: nat, i: nat, chunk: nat, admission: AdmissionClass, accepted: bool)
    requires Inv(p) && Shaped(p) && r < |p.tickets| && i < p.tickets[r].chunks && Midway(p, r, i)
    requires chunk * p.cfg.slotBytes < p.cfg.sourceBytes && Lookup(p.slots, chunk) == NONE
    requires r * p.cfg.maxBatch + i < |p.on|
    ensures var q := PrefetchChunk(p, r, r * p.cfg.maxBatch + i, chunk, admission, accepted);
      && Kept(p, q) && Midway(q, r, i + 1) && q.tickets[r].chunks == p.tickets[r].chunks
      && q.tickets[r].generation == p.tickets[r].generation
  {
    hide Inv, Advances, SamePins, Midway, Claim, StartFill;
    MissAdvances(p, chunk, admission, accepted);
    var (claimed, victim) := Claim(p, admission);
    if victim == NONE {
      NotAdmittedConserves(claimed, admission.Speculative?);
      SettledStep(p, claimed, claimed.(stats := NotAdmitted(claimed.stats, admission.Speculative?)), r, i,
                  if admission.Speculative? then Declined else PoolExhausted);
    } else {
      var (filling, started) := StartFill(claimed, victim, chunk, accepted);
      if started != Ok {
        NotAdmittedConserves(filling, false);
        SettledStep(p, filling, filling.(stats := NotAdmitted(filling.stats, false)), r, i, started);
      } else {
        var q := Admit(filling, victim);
        AdmitInv(filling, victim);
        KeptTransitive(p, filling, q);
        NotAdmittedConserves(q, false);
        JoinStep(p, q, q, r, i, victim);
      }
    }
  }

  lemma NotAdmittedConserves(p: Pool, declined: bool)
    requires Inv(p)
    ensures HintsConserved(p) && HintsConserved(p.(stats := NotAdmitted(p.stats, declined)))
  {
  }

  lemma SegmentInSource(cfg: Config, segments: seq<Segment>, i: nat)
    requires AllSegmentsOk(cfg, segments) && i < |segments|
    ensures SegmentOk(cfg, segments[i]) && segments[i].chunk * cfg.slotBytes < cfg.sourceBytes
  {
  }

  /** A batch is never refused as ticket_exhausted by validation. */
  lemma CheckStatus(cfg: Config, ranges: seq<ByteRange>)
    requires cfg.Valid()
    ensures CheckBatch(cfg, ranges).status in {Ok, EmptyRange, OutOfRange, BatchTooLarge}
  {
    if CheckBatch(cfg, ranges).status != Ok {
      CheckBatchFailure(cfg, ranges);
    }
  }

  lemma {:induction false} PrefetchUpToInv(p: Pool, r: nat, segments: seq<Segment>, admission: AdmissionClass,
                                           answers: seq<bool>, k: nat)
    requires Inv(p) && Shaped(p) && r < |p.tickets| && Midway(p, r, 0)
    requires k <= |segments| == p.tickets[r].chunks <= p.cfg.maxBatch && AllSegmentsOk(p.cfg, segments)
    ensures var q := PrefetchUpTo(p, r, segments, admission, answers, k);
      && Kept(p, q) && Midway(q, r, k) && q.tickets[r].chunks == p.tickets[r].chunks
      && q.tickets[r].generation == p.tickets[r].generation
  {
    hide Inv, Advances, SamePins, Midway, PrefetchChunk, AllSegmentsOk;
    KeptSlots(p, p);
    if k > 0 {
      SegmentInSource(p.cfg, segments, k - 1);
      PrefetchUpToInv(p, r, segments, admission, answers, k - 1);
      var q := PrefetchUpTo(p, r, segments, admission, answers, k - 1);
      PrefetchChunkInv(q, r, k - 1, segments[k - 1].chunk, admission, Answer(answers, k - 1));
      KeptTransitive(p, q, PrefetchUpTo(p, r, segments, admission, answers, k));
    }
  }

  lemma OpenRecordInv(p: Pool, r: nat, chunks: nat)
    requires Inv(p) && PendingLinked(p) && r < |p.tickets| && !p.tickets[r].inUse && chunks <= p.cfg.maxBatch
    ensures Kept(p, OpenRecord(p, r, chunks)) && Midway(OpenRecord(p, r, chunks), r, 0)
  {
    var q := OpenRecord(p, r, chunks);
    assert TicketOk(p, r);
    BlockInside(p.cfg, r);
    SumBounds(Block(p.on, p.cfg, r), LinkedWeight);
    SumUpdate(p.tickets, r, q.tickets[r], HeldWeight);
    forall e | 0 <= e < |q.on| ensures EntryOk(q, e) && EntryMidway(q, r, 0, e) {
      assert EntryOk(p, e) && EntryAwaits(p, e);
      if Owner(p.cfg, e) == r {
        NoneLinked(p, r, e);
      }
    }
    forall t | 0 <= t < |q.tickets| ensures TicketOk(q, t) { assert TicketOk(p, t); }
    LogFrame(p, q);
  }

  lemma MidwayDone(p: Pool, r: nat)
    requires Inv(p) && r < |p.tickets| && Midway(p, r, p.tickets[r].chunks)
    ensures PendingLinked(p)
  {
    forall e | 0 <= e < |p.on| ensures EntryAwaits(p, e) {
      assert EntryMidway(p, r, p.tickets[r].chunks, e);
    }
  }

  /** Prefetch keeps the invariant and the meaning of every pending outcome. The record it issues was
      not in use, and from then on is held, with one entry per chunk. */
  lemma PrefetchInv(p: Pool, ranges: seq<ByteRange>, admission: AdmissionClass, answers: seq<bool>)
    requires Inv(p) && PendingLinked(p)
    ensures var (q, r) := Prefetch(p, ranges, admission, answers);
      && Kept(p, q) && PendingLinked(q)
      && (r.Refused? ==> q == p)
      && (r.Issued? ==>
            (r.record < |q.tickets| && !p.tickets[r.record].inUse && q.tickets[r.record].held
             && q.tickets[r.record].chunks == CheckBatch(p.cfg, ranges).chunks
             && q.tickets[r.record].generation == r.generation == p.tickets[r.record].generation + 1))
  {
    KeptSlots(p, p);
    var check := CheckBatch(p.cfg, ranges);
    if check.status == Ok {
      var r := FirstFreeRecord(p.tickets, 0);
      if r < |p.tickets| {
        OpenRecordInv(p, r, check.chunks);
        var ready := OpenRecord(p, r, check.chunks);
        var segments := Batch(p.cfg, ranges);
        PrefetchUpToInv(ready, r, segments, admission, answers, check.chunks);
        var q := PrefetchUpTo(ready, r, segments, admission, answers, check.chunks);
        KeptTransitive(p, ready, q);
        MidwayDone(q, r);
      }
    }
  }

  /** When a prefetch is refused, and how: with the status of validation, or because every record is in use. */
  lemma PrefetchAnswer(p: Pool, ranges: seq<ByteRange>, admission: AdmissionClass, answers: seq<bool>)
    requires Shaped(p)
    ensures var r := Prefetch(p, ranges, admission, answers).1;
      && (CheckBatch(p.cfg, ranges).status != Ok ==> r == Refused(CheckBatch(p.cfg, ranges).status))
      && (r == Refused(TicketExhausted) <==>
            CheckBatch(p.cfg, ranges).status == Ok && forall t :: 0 <= t < |p.tickets| ==> p.tickets[t].inUse)
      && (r.Issued? <==>
            CheckBatch(p.cfg, ranges).status == Ok && exists t :: 0 <= t < |p.tickets| && !p.tickets[t].inUse)
      && (r.Issued? ==> r.record < |p.tickets| && forall t :: 0 <= t < r.record ==> p.tickets[t].inUse)
  {
    hide PrefetchUpTo, CheckBatch, Batch;
    CheckStatus(p.cfg, ranges);
  }

  // ----- deliveries -----

  /** The outcome of a fill reaches exactly the entries that awaited it. */
  lemma PublishInv(p: Pool, slot: nat, status: Status)
    requires Inv(p) && PendingLinked(p) && slot < |p.slots| && status != Pending
    ensures var q := Publish(p, slot, status);
      && Inv(q) && PendingLinked(q)
      && forall e :: 0 <= e < |p.on| ==> q.on[e] != slot
  {
    var q := Publish(p, slot, status);
    forall t | 0 <= t < |q.tickets|
      ensures TicketOk(q, t) && q.tickets[t].held == p.tickets[t].held && q.tickets[t].chunks == p.tickets[t].chunks {
      assert TicketOk(p, t);
    }
    SumSame(p.tickets, q.tickets, HeldWeight);
    forall e | 0 <= e < |q.on| ensures EntryOk(q, e) && EntryAwaits(q, e) {
      assert EntryOk(p, e) && EntryAwaits(p, e);
    }
    LogFrame(p, q);
  }

  lemma FinishFillInv(p: Pool, slot: nat, status: Status, bytes: nat)
    requires Inv(p) && PendingLinked(p) && slot < |p.slots| && p.slots[slot].state.Filling?
    requires status != Pending || p.slots[slot].pins == 0
    requires forall e :: 0 <= e < |p.on| ==> p.on[e] != slot
    ensures Inv(FinishFill(p, slot, status, bytes)) && PendingLinked(FinishFill(p, slot, status, bytes))
  {
    hide SlotsOk, OnePerChunk, EntriesOk, TicketsOk, LogOk, PendingLinked;
    assert SlotOk(p.cfg, p.slots[slot]) by { SlotIsOk(p, slot); }
    UsedAtLeastOne(p, slot);
    var q := FinishFill(p, slot, status, bytes);
    assert q.slots == p.slots[slot := q.slots[slot]];
    QuietSlotChangeInv(p, slot, q.slots[slot], q);
  }

  lemma SlotIsOk(p: Pool, slot: nat)
    requires SlotsOk(p) && slot < |p.slots|
    ensures SlotOk(p.cfg, p.slots[slot])
  {
  }

  lemma UsedAtLeastOne(p: Pool, slot: nat)
    requires Inv(p) && slot < |p.slots|
    ensures UsedWeight(p.slots[slot]) <= p.nonFree
  {
    SumBounds(p.slots, UsedWeight);
  }

  /** The slot part and the ticket part of a delivery do not interfere. */
  lemma PublishApart(p: Pool, slot: nat, status: Status, bytes: nat)
    requires Shaped(p) && slot < |p.slots|
    ensures Publish(FinishFill(p, slot, status, bytes), slot, status)
        == FinishFill(Publish(p, slot, status), slot, status, bytes)
  {
    hide Linked, WithPending;
  }

  /** A terminal delivery, current or stale, keeps the invariant and the meaning of pending outcomes. */
  lemma OnCompleteInv(p: Pool, token: Token, result: FillResult)
    requires Inv(p) && PendingLinked(p) && result.status != Pending
    ensures Inv(OnComplete(p, token, result)) && PendingLinked(OnComplete(p, token, result))
  {
    if Current(p, token) {
      CurrentCompleteInv(p, token, result);
    } else {
      StatsInv(p, OnComplete(p, token, result));
    }
  }

  lemma CurrentCompleteInv(p: Pool, token: Token, result: FillResult)
    requires Inv(p) && Shaped(p) && PendingLinked(p) && result.status != Pending && Current(p, token)
    ensures Inv(OnComplete(p, token, result)) && PendingLinked(OnComplete(p, token, result))
  {
    hide Inv, PendingLinked, FinishFill;
    var status := ClassifyFill(result, ChunkLength(p.cfg, p.slots[token.index].chunk));
    PublishInv(p, token.index, status);
    FinishFillInv(Publish(p, token.index, status), token.index, status, result.bytes);
    PublishApart(p, token.index, status, result.bytes);
  }

  /** Nobody would notice a delivery to the slot. */
  predicate Unnoticed(p: Pool, slot: nat) {
    slot < |p.slots| && p.slots[slot].pins == 0 && forall e :: 0 <= e < |p.on| ==> p.on[e] != slot
  }

  /** Exactly when a delivery keeps the invariant: a backend that delivered the status `pending`, which is no
      result, would break it unless the delivery is stale or nobody pins or awaits the fill. */
  lemma OnCompleteExact(p: Pool, token: Token, result: FillResult)
    requires Inv(p) && Shaped(p) && PendingLinked(p)
    ensures var q := OnComplete(p, token, result);
      Inv(q) && PendingLinked(q) <==> result.status != Pending || !Current(p, token) || Unnoticed(p, token.index)
  {
    hide Inv, PendingLinked, OnComplete, Unnoticed;
    if result.status != Pending {
      OnCompleteInv(p, token, result);
    } else if !Current(p, token) {
      StaleInv(p, token, result);
    } else if Unnoticed(p, token.index) {
      UnnoticedInv(p, token, result);
    } else {
      NoticedBreaks(p, token, result);
    }
  }

  lemma StaleInv(p: Pool, token: Token, result: FillResult)
    requires Inv(p) && Shaped(p) && PendingLinked(p) && !Current(p, token)
    ensures Inv(OnComplete(p, token, result)) && PendingLinked(OnComplete(p, token, result))
  {
    StatsInv(p, OnComplete(p, token, result));
  }

  lemma UnnoticedInv(p: Pool, token: Token, result: FillResult)
    requires Inv(p) && Shaped(p) && PendingLinked(p) && Current(p, token) && Unnoticed(p, token.index)
    requires result.status == Pending
    ensures Inv(OnComplete(p, token, result)) && PendingLinked(OnComplete(p, token, result))
  {
    hide Inv, PendingLinked, FinishFill;
    PublishNothing(p, token.index, Pending);
    FinishFillInv(p, token.index, Pending, result.bytes);
    PublishApart(p, token.index, Pending, result.bytes);
  }

  lemma PublishNothing(p: Pool, slot: nat, status: Status)
    requires Inv(p) && Shaped(p) && forall e :: 0 <= e < |p.on| ==> p.on[e] != slot
    ensures Publish(p, slot, status) == p
  {
    var q := Publish(p, slot, status);
    assert q.on == p.on && q.outcomes == p.outcomes;
    forall r | 0 <= r < |p.tickets| ensures q.tickets[r] == p.tickets[r] { assert TicketOk(p, r); }
  }

  lemma NoticedBreaks(p: Pool, token: Token, result: FillResult)
    requires Inv(p) && Shaped(p) && PendingLinked(p) && Current(p, token) && !Unnoticed(p, token.index)
    requires result.status == Pending
    ensures !(Inv(OnComplete(p, token, result)) && PendingLinked(OnComplete(p, token, result)))
  {
    hide SlotSide, LogOk, TicketsOk, Linked;
    var q := OnComplete(p, token, result);
    var slot := token.index;
    NotNegative(p, slot);
    if p.slots[slot].pins != 0 {
      FailedPending(q, slot);
    } else {
      var e :| 0 <= e < |p.on| && p.on[e] == slot;
      assert EntryOk(p, e);
      assert !EntryAwaits(q, e);
    }
  }

  lemma NotNegative(p: Pool, slot: nat)
    requires Inv(p) && slot < |p.slots|
    ensures 0 <= p.slots[slot].pins
  {
    SlotIsOk(p, slot);
  }

  lemma FailedPending(p: Pool, slot: nat)
    requires slot < |p.slots| && p.slots[slot].state.Failed? && p.slots[slot].failure == Pending
    ensures !Inv(p)
  {
    assert !SlotOk(p.cfg, p.slots[slot]);
  }

  lemma DiscardTicketInv(p: Pool, r: nat)
    requires Inv(p) && PendingLinked(p) && r < |p.tickets| && p.tickets[r].held
    ensures Kept(p, DiscardTicket(p, r)) && PendingLinked(DiscardTicket(p, r))
    ensures var q := DiscardTicket(p, r);
      && |q.tickets| == |p.tickets| && !q.tickets[r].held && q.tickets[r].generation == p.tickets[r].generation
      && (q.tickets[r].inUse <==> p.tickets[r].pending != 0)
      && (forall t :: 0 <= t < |p.tickets| && t != r ==> q.tickets[t] == p.tickets[t])
  {
    var q := DiscardTicket(p, r);
    assert TicketOk(p, r);
    SumUpdate(p.tickets, r, q.tickets[r], HeldWeight);
    BlockInside(p.cfg, r);
    SumBounds(Block(p.on, p.cfg, r), LinkedWeight);
    forall t | 0 <= t < |q.tickets| ensures TicketOk(q, t) { assert TicketOk(p, t); }
    forall e | 0 <= e < |q.on| ensures EntryOk(q, e) && EntryAwaits(q, e) {
      assert EntryOk(p, e) && EntryAwaits(p, e);
    }
    LogFrame(p, q);
    KeptSlots(p, q);
  }

  /** Byte `x` of the source lies in the range and in the chunk. */
  predicate Touches(cfg: Config, range: ByteRange, chunk: nat, x: nat)
    requires 0 < cfg.slotBytes
  {
    range.offset <= x < range.offset + range.length && x / cfg.slotBytes == chunk
  }

  lemma NamesTouches(cfg: Config, range: ByteRange, chunk: nat)
    requires cfg.Valid()
    ensures SegmentOk(cfg, Segment(chunk, range)) <==>
        ValidateRange(range, cfg.sourceBytes) == Ok && exists x: nat :: Touches(cfg, range, chunk, x)
  {
    if SegmentOk(cfg, Segment(chunk, range)) {
      var x: nat := Max(range.offset, chunk * cfg.slotBytes);
      DivBounds(x, cfg.slotBytes, chunk);
      assert Touches(cfg, range, chunk, x);
    }
    forall x: nat | Touches(cfg, range, chunk, x)
      ensures chunk * cfg.slotBytes < range.offset + range.length
      ensures range.offset < chunk * cfg.slotBytes + cfg.slotBytes {
      DivBounds(x, cfg.slotBytes, chunk);
    }
  }

  /** Some valid range of the batch has a byte in the chunk. */
  ghost predicate Demoted(cfg: Config, ranges: seq<ByteRange>, chunk: nat)
    requires 0 < cfg.slotBytes
  {
    exists j, x: nat :: 0 <= j < |ranges| && ValidateRange(ranges[j], cfg.sourceBytes) == Ok
        && Touches(cfg, ranges[j], chunk, x)
  }

  /** Demotion takes the reference bit from exactly the live slots whose chunk a valid range has a byte of; all
      the rest of the pool stays as it is. */
  lemma WontNeedClears(p: Pool, ranges: seq<ByteRange>, i: nat)
    requires Shaped(p) && i < |p.slots|
    ensures var q := WontNeed(p, ranges);
      && q == p.(slots := q.slots)
      && q.slots[i] == p.slots[i].(referenced := p.slots[i].referenced
                                       && !(p.slots[i].Live() && Demoted(p.cfg, ranges, p.slots[i].chunk)))
  {
    hide SegmentOk, Touches;
    forall j | 0 <= j < |ranges|
      ensures SegmentOk(p.cfg, Segment(p.slots[i].chunk, ranges[j])) <==>
          ValidateRange(ranges[j], p.cfg.sourceBytes) == Ok
          && exists x: nat :: Touches(p.cfg, ranges[j], p.slots[i].chunk, x) {
      NamesTouches(p.cfg, ranges[j], p.slots[i].chunk);
    }
  }

  lemma WontNeedInv(p: Pool, ranges: seq<ByteRange>)
    requires Inv(p)
    ensures Kept(p, WontNeed(p, ranges)) && (PendingLinked(p) ==> PendingLinked(WontNeed(p, ranges)))
    ensures var q := WontNeed(p, ranges);
      && q == p.(slots := q.slots)
      && forall i :: 0 <= i < |p.slots| ==> q.slots[i] == p.slots[i].(referenced := q.slots[i].referenced)
  {
    var q := WontNeed(p, ranges);
    hide SlotSide, EntriesOk, TicketsOk, LogOk, PendingLinked, Names;
    assert forall i :: 0 <= i < |p.slots| ==> SameButBit(p.slots[i], q.slots[i]);
    BitsInv(p, q);
  }

  // ----- pins -----

  function OnSlot(slot: nat): Lease -> int { (lease: Lease) => if lease.slot == slot then 1 else 0 }

  /** `q` has the pins of `p` and, besides, those of the leases. */
  predicate PinsAdded(p: Pool, q: Pool, leases: seq<Lease>) {
    |q.slots| == |p.slots| && forall i :: 0 <= i < |p.slots| ==>
        q.slots[i].pins == p.slots[i].pins + Sum(leases, OnSlot(i))
  }

  /** The lease pins a live slot that holds the segment's chunk, for the segment's bytes. */
  predicate Holds(p: Pool, lease: Lease, segment: Segment)
    requires p.cfg.Valid() && SegmentOk(p.cfg, segment)
  {
    && lease.slot < |p.slots|
    && var s := p.slots[lease.slot];
       s.Live() && s.chunk == segment.chunk && 0 < s.pins && lease == LeaseFor(p.cfg, lease.slot, s.generation, segment)
  }

  predicate AllHold(p: Pool, leases: seq<Lease>, segments: seq<Segment>)
    requires p.cfg.Valid() && AllSegmentsOk(p.cfg, segments)
  {
    |leases| <= |segments| && forall i :: 0 <= i < |leases| ==> Holds(p, leases[i], segments[i])
  }

  lemma AllHoldStable(p: Pool, q: Pool, leases: seq<Lease>, segments: seq<Segment>)
    requires p.cfg.Valid() && AllSegmentsOk(p.cfg, segments) && AllHold(p, leases, segments) && Advances(p, q)
    ensures AllHold(q, leases, segments)
  {
    forall i | 0 <= i < |leases| ensures Holds(q, leases[i], segments[i]) {
      assert Holds(p, leases[i], segments[i]);
      assert Forward(p.slots[leases[i].slot], q.slots[leases[i].slot]);
    }
  }

  lemma AccessKeeps(p: Pool, slot: nat)
    requires Inv(p) && slot < |p.slots| && p.slots[slot].Live()
    ensures var q := Pin(Access(p, slot), slot);
      && Inv(q) && Advances(p, q) && (PendingLinked(p) ==> PendingLinked(q))
      && q.slots == p.slots[slot := p.slots[slot].(referenced := true, hintUnconsumed := false,
                                                   pins := p.slots[slot].pins + 1)]
      && 0 <= p.slots[slot].pins
  {
    hide EntriesOk, TicketsOk, LogOk, PendingLinked;
    var q := Pin(Access(p, slot), slot);
    assert SlotOk(p.cfg, p.slots[slot]);
    assert q.slots == p.slots[slot := q.slots[slot]];
    QuietSlotChangeInv(p, slot, q.slots[slot], q);
  }

  /** A resolve's access to a live slot, with its pin. */
  lemma AccessAndPinInv(p: Pool, leases: seq<Lease>, slot: nat, segment: Segment)
    requires Inv(p) && Shaped(p) && slot < |p.slots| && LeasesInPool(p, leases) && SegmentOk(p.cfg, segment)
    requires p.slots[slot].Live() && p.slots[slot].chunk == segment.chunk
    ensures var b := AccessAndPin(p, leases, slot, segment);
      var lease := LeaseFor(p.cfg, slot, p.slots[slot].generation, segment);
      && Inv(b.pool) && Advances(p, b.pool) && (PendingLinked(p) ==> PendingLinked(b.pool))
      && b.failure == Ok && b.leases == leases + [lease] && Holds(b.pool, lease, segment)
      && PinsAdded(p, b.pool, [lease])
  {
    hide Inv, Advances, PendingLinked, LeaseFor;
    AccessKeeps(p, slot);
    var b := AccessAndPin(p, leases, slot, segment);
    var lease := LeaseFor(p.cfg, slot, p.slots[slot].generation, segment);
    forall i | 0 <= i < |p.slots| ensures b.pool.slots[i].pins == p.slots[i].pins + Sum([lease], OnSlot(i)) {
      SumOne(lease, OnSlot(i));
    }
  }
}
