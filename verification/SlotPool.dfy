/** SlotPool (include/sub0mempage/slot_pool.hpp) as the class it is: its methods update the slots, the
    open-addressed index, the intrusive waiter lists, the ticket records and the counters in place. Each
    method is one critical section (or a step of one) and is proved against PoolModel, the same functions
    the runs of PoolRuns are made of. */
module SlotPoolClass {
  import opened Transfer
  import opened Products
  import opened Sums
  import opened PoolState
  import opened ClockSweep
  import opened ChunkTiling
  import opened ChunkIndex
  import opened WaiterLists
  import M = PoolModel
  import I = PoolInvariant
  import S = PoolSteps
  import R = PoolResolve
  import W = PoolWaits
  import opened SlotPoolFacts

  class SlotPool {
    const cfg: Config
    const indexShift: nat
    var slots: seq<Slot>
    var heads: seq<int>      // waiter_head of each slot
    var index: seq<int>      // open-addressed chunk -> slot, no tombstones
    var tickets: seq<TicketRecord>
    var outcomes: seq<Status> // outcome of each waiter entry, record-major
    var next: seq<int>        // next link of each waiter entry
    var clockHand: nat
    var inFlight: int
    var pinsTotal: int
    var ticketsHeld: int
    var nonFree: int
    var counters: Stats

    ghost var at: map<int, nat>          // where each indexed slot is stored
    ghost var on: seq<int>               // the slot each waiter entry is linked to
    ghost var queues: seq<seq<nat>>      // the waiter lists, spelled out
    ghost var consumed: nat              // prefetched fills that a resolve has consumed
    ghost var requests: map<Token, Request> // every request the backend has accepted

    ghost function Abs(): Pool
      reads this
    {
      Pool(cfg, slots, outcomes, on, tickets, clockHand, inFlight, pinsTotal, ticketsHeld, nonFree, counters,
           consumed, requests)
    }

    /** The index represents the partial map from chunks to live slots, and its home function stays in it. */
    ghost predicate Indexed()
      reads this
    {
      M.Shaped(Abs()) && Represents(indexShift, index, at, slots)
    }

    /** The lists represent which entry awaits which slot's fill. */
    ghost predicate Listed()
      reads this
    {
      |heads| == |slots| && |on| == |outcomes| && Lists(heads, next, on, queues)
    }

    ghost predicate Sound()
      reads this
    {
      Indexed() && Listed() && I.Inv(Abs())
    }

    ghost predicate Valid()
      reads this
    {
      Sound() && I.PendingLinked(Abs())
    }

    // ----- chunk index -----

    method IndexHome(chunk: nat) returns (pos: nat)
      requires indexShift <= 64 && |index| == Pow2(64 - indexShift)
      ensures pos == Home(indexShift)(chunk) && pos < |index|
    {
      HashInTable(chunk, 64 - indexShift);
      pos := Hash(chunk, indexShift);
    }

    /** The slot that is live for the chunk, or NONE. Termination is the load bound: some cell is empty. */
    method IndexFind(chunk: nat) returns (slot: int)
      requires Indexed() && I.OnePerChunk(slots)
      ensures slot == Lookup(slots, chunk)
    {
      hide M.Shaped, Probed, IndexOk, Dist, Next;
      ghost var home := Home(indexShift);
      ghost var empty := FindEmpty();
      var pos: nat := IndexHome(chunk);
      ProbeStart(index, slots, home(chunk), empty, chunk);
      while true
        invariant pos < |index| && home(chunk) < |index|
        invariant Probed(index, slots, home(chunk), pos, chunk)
        invariant Dist(home(chunk), pos, |index|) <= Dist(home(chunk), empty, |index|)
        decreases Dist(home(chunk), empty, |index|) - Dist(home(chunk), pos, |index|)
      {
        slot := index[pos];
        if slot == NONE {
          forall s | s in at ensures slots[s].chunk != chunk { ProbeMiss(index, slots, at, home, chunk, pos, s); }
          OnlyLookup(slots, chunk, slot);
          return;
        }
        CellIsSlot(index, slots, at, home, pos);
        if slots[slot].chunk == chunk {
          OnlyLookup(slots, chunk, slot);
          return;
        }
        NotYet(home(chunk), pos, empty, |index|);
        ProbeStep(index, slots, home(chunk), pos, chunk, empty);
        DistNext(home(chunk), pos, empty, |index|);
        pos := Next(pos, |index|);
      }
    }

    lemma FindEmpty() returns (empty: nat)
      requires 2 * |slots| <= |index| && M.Shaped(Abs()) && IndexOk(index, slots, at, Home(indexShift))
      ensures empty < |index| && index[empty] == NONE
    {
      empty := EmptyCell(index, slots, at);
    }

    method IndexInsert(chunk: nat, slot: nat)
      requires M.Shaped(Abs()) && indexShift <= 64 && |index| == Pow2(64 - indexShift) && 2 * |slots| <= |index|
      requires IndexOk(index, slots, at, Home(indexShift))
      requires slot < |slots| && slot !in at && slots[slot].chunk == chunk
      requires forall s :: s in at ==> slots[s].chunk != chunk
      modifies this`index, this`at
      ensures |index| == old(|index|) && IndexOk(index, slots, at, Home(indexShift))
      ensures at.Keys == old(at).Keys + {slot}
    {
      hide M.Shaped, Reached, IndexOk, Dist, Next;
      ghost var home := Home(indexShift);
      ghost var empty := FindEmpty();
      var pos: nat := IndexHome(chunk);
      ReachStart(index, home(chunk), empty);
      while index[pos] != NONE
        invariant index == old(index) && at == old(at)
        invariant pos < |index| && home(chunk) < |index| && Reached(index, home(chunk), pos)
        invariant Dist(home(chunk), pos, |index|) <= Dist(home(chunk), empty, |index|)
        decreases Dist(home(chunk), empty, |index|) - Dist(home(chunk), pos, |index|)
      {
        NotYet(home(chunk), pos, empty, |index|);
        ReachStep(index, home(chunk), pos, empty);
        DistNext(home(chunk), pos, empty, |index|);
        pos := Next(pos, |index|);
      }
      InsertOk(index, slots, at, home, slot, pos);
      index := index[pos := slot];
      at := at[slot := pos];
    }

    /** The cell of an indexed slot, by its chunk: the first loop of index_erase. */
    method IndexCell(chunk: nat, ghost victim: int) returns (hole: nat)
      requires indexShift <= 64 && |index| == Pow2(64 - indexShift)
      requires IndexOk(index, slots, at, Home(indexShift))
      requires victim in at && 0 <= victim < |slots| && slots[victim].chunk == chunk
      ensures hole == at[victim]
    {
      hide IndexOk, Dist, Next;
      ghost var home := Home(indexShift);
      VictimCell(index, slots, at, home, victim);
      hole := IndexHome(chunk);
      OnTheWayStart(home(chunk), at[victim], |index|);
      OnTheWay(index, slots, at, home, victim, hole);
      while slots[index[hole]].chunk != chunk
        invariant hole < |index| && home(chunk) < |index| && index[hole] in at && 0 <= index[hole] < |slots|
        invariant Dist(home(chunk), hole, |index|) <= Dist(home(chunk), at[victim], |index|)
        invariant slots[index[hole]].chunk == chunk <==> hole == at[victim]
        decreases Dist(home(chunk), at[victim], |index|) - Dist(home(chunk), hole, |index|)
      {
        OnTheWay(index, slots, at, home, victim, hole);
        DistNext(home(chunk), hole, at[victim], |index|);
        hole := Next(hole, |index|);
        OnTheWay(index, slots, at, home, victim, hole);
      }
    }

    /** Removes exactly the entry of `victim`, whose chunk this is; every other entry stays reachable. */
    method IndexErase(chunk: nat, ghost victim: int)
      requires M.Shaped(Abs()) && indexShift <= 64 && |index| == Pow2(64 - indexShift) && 2 * |slots| <= |index|
      requires IndexOk(index, slots, at, Home(indexShift))
      requires victim in at && 0 <= victim < |slots| && slots[victim].chunk == chunk
      modifies this`index, this`at
      ensures |index| == old(|index|) && IndexOk(index, slots, at, Home(indexShift))
      ensures at.Keys == old(at).Keys - {victim}
    {
      hide *;
      ghost var home := Home(indexShift);
      ghost var empty := FindEmpty();
      VictimCell(index, slots, at, home, victim);
      var hole: nat := IndexCell(chunk, victim);
      ghost var start := hole;
      ShiftStart(index, slots, at, home, victim);
      EmptyAhead(start, empty, |index|);
      at := at - {victim};
      var pos: nat := Next(hole, |index|);
      while index[pos] != NONE
        invariant |index| == old(|index|) && hole < |index| && pos < |index|
        invariant Shifting(index, slots, at, home, hole, pos)
        invariant at.Keys == old(at).Keys - {victim} && Keyed(slots, at)
        invariant start < |index| && empty < |index| && index[empty] == NONE
        invariant Dist(start, hole, |index|) < Dist(start, pos, |index|) <= Dist(start, empty, |index|)
        decreases Dist(start, empty, |index|) - Dist(start, pos, |index|)
      {
        ShiftReady(index, slots, at, home, start, hole, pos, empty);
        var entryHome: nat := IndexHome(slots[index[pos]].chunk);
        if Dist(entryHome, pos, |index|) >= Dist(hole, pos, |index|) {
          ShiftMove(index, slots, at, home, hole, pos);
          KeyedMoved(slots, at, index[pos], hole);
          at := at[index[pos] := hole];
          index := index[hole := index[pos]];
          hole := pos;
        } else {
          ShiftSkip(index, slots, at, home, hole, pos);
        }
        pos := Next(pos, |index|);
      }
      ShiftEnd(index, slots, at, home, hole, pos);
      index := index[hole := NONE];
    }

    // ----- slot lifecycle -----

    method MakeFree(slot: nat)
      requires Indexed() && slot < |slots|
      modifies this`slots, this`index, this`at, this`nonFree
      ensures Indexed() && Abs() == M.MakeFree(old(Abs()), slot)
    {
      var s := slots[slot];
      if s.state.Filling? || s.state.Ready? {
        IndexErase(s.chunk, slot);
      }
      if !s.state.Free? {
        nonFree := nonFree - 1;
      }
      slots := slots[slot := s.(state := Free, referenced := false, hintUnconsumed := false)];
      IndexFrame(index, old(slots), slots, at, Home(indexShift));
    }

    method Evict(slot: nat)
      requires Indexed() && slot < |slots| && slots[slot].state.Ready?
      modifies this`slots, this`index, this`at, this`nonFree, this`counters
      ensures Indexed()
      ensures Abs() == M.MakeFree(old(Abs()).(stats := M.Evicted(old(counters), old(slots[slot].hintUnconsumed))), slot)
    {
      hide Represents;
      counters := counters.(evictions := counters.evictions + 1);
      if slots[slot].hintUnconsumed {
        counters := counters.(hintUnconsumed := counters.hintUnconsumed + 1);
      }
      MakeFree(slot);
    }

    /** CLOCK, as the sweep the source runs, against its outcome stated without the loop. */
    method ClaimVictim(admission: AdmissionClass) returns (victim: int)
      requires Indexed()
      modifies this`slots, this`index, this`at, this`nonFree, this`clockHand, this`counters
      ensures Indexed() && Abs() == M.Claim(old(Abs()), admission).0 && victim == M.Claim(old(Abs()), admission).1
    {
      hide Represents, ClearBits, Sweep, Passed, HandAt, Span, ClearedAt, M.MakeFree, Listed, Home, Sound, Valid;
      var n: nat := cfg.numSlots;
      var steps: nat := Span(admission, n);
      ghost var start := slots;
      ghost var hand: nat := clockHand;
      var step: nat := 0;
      SweepStart(start, hand, admission);
      while step < steps
        invariant step <= steps && n == |start| == |slots| && clockHand < n
        invariant clockHand == HandAt(hand, step, n) && Passed(start, hand, step)
        invariant slots == ClearBits(start, hand, ClearedAt(admission, step, n))
        invariant index == old(index) && at == old(at) && nonFree == old(nonFree) && counters == old(counters)
      {
        var slot: nat := clockHand;
        clockHand := if clockHand + 1 == n then 0 else clockHand + 1;
        HandMoves(hand, step, n);
        ClearStep(start, hand, admission, step);
        SweepStep(start, hand, admission, step);
        var candidate := slots[slot];
        step := step + 1;
        if candidate.pins != 0 {
          continue;
        }
        if candidate.state.Free? {
          LiveAfterClear(indexShift, index, at, start, hand, ClearedAt(admission, step - 1, n));
          return slot;
        }
        if !candidate.state.Ready? {
          continue;
        }
        if candidate.referenced {
          if admission.Declared? {
            slots := slots[slot := candidate.(referenced := false)];
          }
          continue;
        }
        LiveAfterClear(indexShift, index, at, start, hand, ClearedAt(admission, step - 1, n));
        Evict(slot);
        return slot;
      }
      SweepStops(start, hand, admission, step);
      LiveAfterClear(indexShift, index, at, start, hand, ClearedAt(admission, step, n));
      victim := NONE;
    }

    /** Names a free slot for a chunk that no slot is live for, and indexes it. */
    method NameSlot(slot: nat, chunk: nat)
      requires Indexed() && slot < |slots| && slots[slot].state.Free?
      requires |heads| == |slots| && heads[slot] == NONE
      requires forall s :: 0 <= s < |slots| && slots[s].Live() ==> slots[s].chunk != chunk
      modifies this`slots, this`index, this`at, this`nonFree, this`counters, this`heads
      ensures Indexed() && heads == old(heads) && Abs() == M.NameSlot(old(Abs()), slot, chunk)
    {
      hide IndexOk, Keyed;
      var s := slots[slot];
      slots := slots[slot := s.(chunk := chunk, generation := s.generation + 1, state := Filling, failure := Ok)];
      heads := heads[slot := NONE];
      IndexFrame(index, old(slots), slots, at, Home(indexShift));
      IndexInsert(chunk, slot);
      nonFree := nonFree + 1;
      counters := counters.(highWater := Max(counters.highWater, nonFree));
    }

    /** Puts a free slot to work on a chunk that no slot is live for; `accepted` is the backend's answer. */
    method StartFill(slot: nat, chunk: nat, accepted: bool) returns (status: Status)
      requires Indexed() && slot < |slots| && slots[slot].state.Free?
      requires |heads| == |slots| && heads[slot] == NONE
      requires forall s :: 0 <= s < |slots| && slots[s].Live() ==> slots[s].chunk != chunk
      modifies this`slots, this`index, this`at, this`nonFree, this`counters, this`heads, this`inFlight, this`requests
      ensures Indexed() && heads == old(heads)
      ensures (Abs(), status) == M.StartFill(old(Abs()), slot, chunk, accepted)
    {
      hide Represents;
      NameSlot(slot, chunk);
      var request := RequestFor(cfg, slot, slots[slot].generation, chunk);
      if !accepted {
        MakeFree(slot);
        return QueueExhausted;
      }
      requests := requests[request.token := request];
      inFlight := inFlight + 1;
      return Ok;
    }

    // ----- deliveries -----

    /** Takes `entry` off the walk over the slot's list: it has its outcome, and its record one less pending. */
    method TakeEntry(slot: nat, entry: nat, status: Status, ghost p: Pool) returns (following: int)
      requires M.Shaped(p) && cfg == p.cfg && |queues| == |heads| == |p.slots| && slot < |heads| && |next| == |on|
      requires Lists(heads[slot := entry], next, on, queues) && Walked(p, slot, status, on, outcomes, tickets)
      modifies this`next, this`outcomes, this`tickets, this`on, this`queues
      ensures |queues| == |heads| && |next| == |on| && |queues[slot]| < old(|queues[slot]|)
      ensures Lists(heads[slot := following], next, on, queues) && Walked(p, slot, status, on, outcomes, tickets)
    {
      hide Lists, Walked, I.Owner;
      WalkOn(heads, next, on, queues, slot, entry);
      WalkSizes(p, slot, status, on, outcomes, tickets);
      WalkStep(p, slot, status, on, outcomes, tickets, entry);
      outcomes := outcomes[entry := status];
      var record: nat := I.Owner(cfg, entry);
      var waiting := tickets[record];
      var pending := waiting.pending - 1;
      tickets := tickets[record := waiting.(pending := pending,
                                            inUse := if pending == 0 && !waiting.held then false else waiting.inUse)];
      following := next[entry];
      next := next[entry := NONE];
      on := on[entry := NONE];
      queues := queues[slot := queues[slot][1..]];
    }

    /** Walks the slot's list, giving every entry the outcome and counting it in its record. */
    method PublishOutcome(slot: nat, status: Status)
      requires Indexed() && Listed() && I.TicketsOk(Abs()) && slot < |slots|
      modifies this`heads, this`next, this`outcomes, this`tickets, this`on, this`queues
      ensures Indexed() && Listed() && Abs() == M.Publish(old(Abs()), slot, status)
    {
      hide Lists, I.TicketsOk, Walked, Represents, M.Publish, I.Owner;
      ghost var p := Abs();
      var entry := heads[slot];
      heads := heads[slot := NONE];
      assert heads[slot := entry] == old(heads);
      WalkStart(p, slot, status);
      ListSizes(old(heads), next, on, queues);
      while entry != NONE
        invariant heads == old(heads)[slot := NONE] && |queues| == |heads| && |next| == |on|
        invariant Lists(heads[slot := entry], next, on, queues)
        invariant Walked(p, slot, status, on, outcomes, tickets)
        decreases |queues[slot]|
      {
        WalkOn(heads, next, on, queues, slot, entry);
        entry := TakeEntry(slot, entry, status, p);
      }
      assert heads[slot := NONE] == heads;
      HeadMeaning(heads, next, on, queues, slot);
      WalkSizes(p, slot, status, on, outcomes, tickets);
      WalkEnd(p, slot, status, on, outcomes, tickets);
    }

    /** A failed fill leaves the index at once, so that no partial bytes are ever published. */
    method Unindex(slot: nat, status: Status)
      requires Indexed() && slot < |slots| && slots[slot].Live()
      modifies this`slots, this`index, this`at
      ensures Indexed()
      ensures slots ==
              old(slots)[slot := old(slots[slot]).(state := Failed, failure := status, hintUnconsumed := false)]
    {
      hide IndexOk, Keyed;
      IndexErase(slots[slot].chunk, slot);
      slots := slots[slot := slots[slot].(state := Failed, failure := status, hintUnconsumed := false)];
      IndexFrame(index, old(slots), slots, at, Home(indexShift));
    }

    /** A fill that did not deliver the whole chunk: the slot is failed, and free as soon as nothing pins it. */
    method FailFill(slot: nat, status: Status, bytes: nat)
      requires Indexed() && slot < |slots| && slots[slot].state.Filling? && status != Ok
      modifies this`slots, this`index, this`at, this`nonFree, this`counters, this`inFlight
      ensures Indexed() && Abs() == M.FinishFill(old(Abs()), slot, status, bytes)
    {
      hide Represents;
      inFlight := inFlight - 1;
      counters := Failing(counters, slots[slot].hintUnconsumed);
      var pins := slots[slot].pins;
      Unindex(slot, status);
      if pins == 0 {
        MakeFree(slot);
      }
    }

    /** The slot part of a delivery. */
    method FinishFill(slot: nat, status: Status, bytes: nat)
      requires Indexed() && slot < |slots| && slots[slot].state.Filling?
      modifies this`slots, this`index, this`at, this`nonFree, this`counters, this`inFlight
      ensures Indexed() && Abs() == M.FinishFill(old(Abs()), slot, status, bytes)
    {
      hide Represents;
      if status != Ok {
        FailFill(slot, status, bytes);
        return;
      }
      inFlight := inFlight - 1;
      slots := slots[slot := slots[slot].(state := Ready)];
      SameLive(indexShift, index, at, old(slots), slots);
      counters := counters.(bytesRead := counters.bytesRead + bytes);
    }

    /** A delivery from the backend. One that names no fill in flight is counted and otherwise ignored. The pool
        stays valid if the delivery is of a result; what becomes of it otherwise, PoolSteps.OnCompleteExact
        says. */
    method OnComplete(token: Token, result: FillResult)
      requires Valid()
      modifies this`slots, this`heads, this`index, this`tickets, this`outcomes, this`next, this`inFlight,
               this`nonFree, this`counters, this`at, this`on, this`queues
      ensures Indexed() && Listed() && Abs() == M.OnComplete(old(Abs()), token, result)
      ensures result.status != Pending ==> Valid()
    {
      hide I.Inv, I.PendingLinked, Lists, M.FinishFill, M.Publish, Represents;
      ghost var p := Abs();
      TicketsSide(p);
      if result.status != Pending {
        S.OnCompleteInv(p, token, result);
      }
      if token.index >= |slots| || slots[token.index].generation != token.generation
          || !slots[token.index].state.Filling? {
        counters := counters.(stale := counters.stale + 1);
        return;
      }
      var status := ClassifyFill(result, ChunkLength(cfg, slots[token.index].chunk));
      FinishFill(token.index, status, result.bytes);
      TicketsApart(p, Abs());
      PublishOutcome(token.index, status);
    }

    // ----- leases -----

    /** Pins the slot and cuts the lease to the part of the segment's range that lies in its chunk. */
    method MakeLease(slot: nat, segment: Segment) returns (lease: Lease)
      requires Indexed() && slot < |slots| && SegmentOk(cfg, segment)
      modifies this`slots, this`pinsTotal
      ensures Indexed() && Abs() == M.Pin(old(Abs()), slot)
      ensures lease == LeaseFor(cfg, slot, slots[slot].generation, segment)
    {
      hide Represents;
      slots := slots[slot := slots[slot].(pins := slots[slot].pins + 1)];
      SameLive(indexShift, index, at, old(slots), slots);
      pinsTotal := pinsTotal + 1;
      LeaseInside(cfg, segment, slot, slots[slot].generation);
      var start: u64 := segment.chunk * cfg.slotBytes;
      var begin := Max(segment.range.offset, start);
      var end := Min(segment.range.offset + segment.range.length, start + ChunkLength(cfg, segment.chunk));
      lease := Lease(slot, slots[slot].generation, begin - start, begin, end - begin);
    }

    method UnpinLocked(slot: nat)
      requires Indexed() && slot < |slots|
      modifies this`slots, this`index, this`at, this`nonFree, this`pinsTotal
      ensures Indexed() && Abs() == M.Unpin(old(Abs()), slot)
    {
      pinsTotal := pinsTotal - 1;
      var pins := slots[slot].pins - 1;
      slots := slots[slot := slots[slot].(pins := pins)];
      SameLive(indexShift, index, at, old(slots), slots);
      if pins == 0 && slots[slot].state.Failed? {
        MakeFree(slot);
      }
    }

    /** Gives a pin back. The caller's lease names the slot's current fill and pins it: anything else is a
        use after release, where the source terminates. */
    method ReleaseLease(lease: Lease)
      requires Valid() && lease.slot < |slots|
      requires slots[lease.slot].generation == lease.generation && slots[lease.slot].pins != 0
      modifies this`slots, this`index, this`at, this`nonFree, this`pinsTotal
      ensures Valid() && Abs() == M.Unpin(old(Abs()), lease.slot)
      ensures slots[lease.slot].pins == old(slots[lease.slot].pins) - 1
    {
      hide I.Inv, I.PendingLinked, Represents;
      PinsNonNegative(Abs(), lease.slot);
      R.UnpinInv(Abs(), lease);
      UnpinLocked(lease.slot);
    }

    // ----- request normalisation -----

    /** Validates a batch and counts its chunks. */
    method ValidateBatch(ranges: seq<ByteRange>) returns (status: Status, chunks: nat)
      requires cfg.Valid()
      ensures BatchCheck(status, chunks) == CheckBatch(cfg, ranges)
    {
      chunks := 0;
      for k := 0 to |ranges|
        invariant CheckUpTo(cfg, ranges, k) == BatchCheck(Ok, chunks)
      {
        var range := ranges[k];
        status := ValidateRange(range, cfg.sourceBytes);
        if status != Ok {
          CheckFails(cfg, ranges, k + 1);
          return;
        }
        ChunkBounds(cfg.slotBytes, range, 0);
        var end: u64 := range.offset + range.length;
        var span := (end - 1) / cfg.slotBytes - range.offset / cfg.slotBytes + 1;
        if span > cfg.maxBatch - chunks {
          CheckFails(cfg, ranges, k + 1);
          return BatchTooLarge, chunks;
        }
        chunks := chunks + span;
      }
      status := if chunks == 0 then EmptyRange else Ok;
    }

    /** The chunks of one valid range, first to last; the counter never wraps. */
    method ForRange(range: ByteRange) returns (segments: seq<Segment>)
      requires cfg.Valid() && ValidateRange(range, cfg.sourceBytes) == Ok
      ensures segments == RangeSegments(cfg.slotBytes, range)
    {
      ChunkBounds(cfg.slotBytes, range, 0);
      var end: u64 := range.offset + range.length;
      var first: u64 := range.offset / cfg.slotBytes;
      var last: u64 := (end - 1) / cfg.slotBytes;
      ghost var all := RangeSegments(cfg.slotBytes, range);
      segments := [];
      var chunk: u64 := first;
      while chunk <= last
        invariant first <= chunk <= last + 1 && segments == all[..chunk - first]
      {
        segments := segments + [Segment(chunk, range)];
        SegmentAt(cfg, range, chunk - first);
        ChunkFits(cfg, all[chunk - first]);
        chunk := chunk + 1;
      }
    }

    /** The chunks a valid batch names, in the order in which the source visits them. */
    method ForEachChunk(ranges: seq<ByteRange>) returns (segments: seq<Segment>)
      requires cfg.Valid() && Inside(cfg, ranges, |ranges|)
      ensures segments == Segments(cfg.slotBytes, ranges)
    {
      hide RangeSegments;
      segments := [];
      for k := 0 to |ranges|
        invariant segments == SegmentsUpTo(cfg.slotBytes, ranges, k)
      {
        var chunks := ForRange(ranges[k]);
        segments := segments + chunks;
      }
    }

    // ----- prefetch -----

    /** The miss of a prefetch: a victim is claimed for the chunk and its fill submitted, or not. */
    method PrefetchMiss(chunk: nat, admission: AdmissionClass, accepted: bool) returns (slot: int, outcome: Status)
      requires Indexed() && Listed() && I.EntriesOk(Abs()) && Lookup(slots, chunk) == NONE
      modifies this`slots, this`heads, this`index, this`at, this`nonFree, this`clockHand, this`counters,
               this`inFlight, this`requests
      ensures Indexed() && heads == old(heads)
      ensures (Abs(), slot, outcome) == Missed(old(Abs()), chunk, admission, accepted)
    {
      hide Represents, I.EntriesOk, M.Claim, M.StartFill, Lists;
      ghost var p := Abs();
      ClaimedRoom(p, admission, chunk);
      slot := ClaimVictim(admission);
      if slot == NONE {
        if admission.Speculative? {
          counters := counters.(hintDeclined := counters.hintDeclined + 1);
          return NONE, Declined;
        }
        counters := counters.(admissionFailures := counters.admissionFailures + 1);
        return NONE, PoolExhausted;
      }
      NothingQueued(p, heads, next, queues, slot);
      var submitted := StartFill(slot, chunk, accepted);
      if submitted != Ok {
        counters := counters.(admissionFailures := counters.admissionFailures + 1);
        return NONE, submitted;
      }
      FlagHint(slot);
      return slot, Pending;
    }

    method FlagHint(slot: nat)
      requires Indexed() && slot < |slots|
      modifies this`slots, this`counters
      ensures Indexed() && Abs() == Flagged(old(Abs()), slot)
    {
      hide Represents;
      counters := counters.(hintAdmitted := counters.hintAdmitted + 1);
      slots := slots[slot := slots[slot].(hintUnconsumed := true)];
      SameLive(indexShift, index, at, old(slots), slots);
    }

    /** Links an entry that no list holds to the fill of `slot`, at the head of its list. */
    method Link(record: nat, entry: nat, slot: nat)
      requires Indexed() && Listed() && record < |tickets| && entry < |on| && on[entry] == NONE && slot < |slots|
      modifies this`heads, this`next, this`outcomes, this`tickets, this`on, this`queues
      ensures Indexed() && Listed() && Abs() == M.Join(old(Abs()), record, entry, slot)
    {
      hide Represents, Lists;
      ListSizes(heads, next, on, queues);
      Pushed(heads, next, on, queues, slot, entry);
      outcomes := outcomes[entry := Pending];
      var head := heads[slot];
      heads := heads[slot := entry];
      next := next[entry := head];
      on := on[entry := slot];
      queues := queues[slot := [entry] + queues[slot]];
      tickets := tickets[record := tickets[record].(pending := tickets[record].pending + 1)];
    }

    /** Resets the link of an entry that no list holds. */
    method ResetLink(entry: nat)
      requires Listed() && entry < |on| && on[entry] == NONE
      modifies this`next
      ensures Listed()
    {
      hide Lists;
      ListSizes(heads, next, on, queues);
      LinkReset(heads, next, on, queues, entry);
      next := next[entry := NONE];
    }

    /** One chunk of a prefetch: its entry settles at once or joins a fill. */
    method PrefetchChunk(record: nat, entry: nat, chunk: nat, admission: AdmissionClass, accepted: bool)
      requires Indexed() && Listed() && I.OnePerChunk(slots) && I.EntriesOk(Abs())
      requires record < |tickets| && entry < |on| && on[entry] == NONE
      modifies this`slots, this`heads, this`index, this`tickets, this`outcomes, this`next, this`clockHand,
               this`inFlight,
               this`nonFree, this`counters, this`at, this`on, this`queues, this`requests
      ensures Indexed() && Listed()
      ensures Abs() == M.PrefetchChunk(old(Abs()), record, entry, chunk, admission, accepted)
    {
      hide Represents, Lists, Missed, I.EntriesOk, I.OnePerChunk, M.Claim, M.StartFill;
      ghost var p := Abs();
      ResetLink(entry);
      var slot := IndexFind(chunk);
      if slot == NONE {
        PrefetchAbsent(record, entry, chunk, admission, accepted);
        return;
      }
      counters := counters.(hintIssued := counters.hintIssued + 1, hintResident := counters.hintResident + 1);
      if slots[slot].state.Ready? {
        outcomes := outcomes[entry := Ok];
        assert on == on[entry := NONE];
      } else {
        counters := counters.(coalesced := counters.coalesced + 1);
        Link(record, entry, slot);
      }
    }

    /** The same for a chunk that no slot is live for. */
    method PrefetchAbsent(record: nat, entry: nat, chunk: nat, admission: AdmissionClass, accepted: bool)
      requires Indexed() && Listed() && I.EntriesOk(Abs()) && Lookup(slots, chunk) == NONE
      requires record < |tickets| && entry < |on| && on[entry] == NONE
      modifies this`slots, this`heads, this`index, this`tickets, this`outcomes, this`next, this`clockHand,
               this`inFlight,
               this`nonFree, this`counters, this`at, this`on, this`queues, this`requests
      ensures Indexed() && Listed()
      ensures Abs() == M.PrefetchChunk(old(Abs()), record, entry, chunk, admission, accepted)
    {
      hide Represents, Lists, Missed, I.EntriesOk, M.PrefetchChunk;
      MissedIsPrefetch(Abs(), record, entry, chunk, admission, accepted);
      EntriesFrame(Abs(), Issue(Abs()));
      counters := counters.(hintIssued := counters.hintIssued + 1);
      var slot, outcome := PrefetchMiss(chunk, admission, accepted);
      if slot != NONE {
        Link(record, entry, slot);
      } else {
        outcomes := outcomes[entry := outcome];
        assert on == on[entry := NONE];
      }
    }

    /** The first record not in use, or one past the last. */
    method FreeRecord() returns (record: nat)
      ensures record == M.FirstFreeRecord(tickets, 0)
    {
      record := 0;
      while record < |tickets| && tickets[record].inUse
        invariant record <= |tickets| && M.FirstFreeRecord(tickets, record) == M.FirstFreeRecord(tickets, 0)
      {
        record := record + 1;
      }
    }

    method PrefetchAll(record: nat, segments: seq<Segment>, admission: AdmissionClass, answers: seq<bool>)
      requires Sound() && record < |tickets| && I.Midway(Abs(), record, 0)
      requires |segments| == tickets[record].chunks <= cfg.maxBatch && M.AllSegmentsOk(cfg, segments)
      modifies this`slots, this`heads, this`index, this`tickets, this`outcomes, this`next, this`clockHand,
               this`inFlight,
               this`nonFree, this`counters, this`at, this`on, this`queues, this`requests
      ensures Indexed() && Listed()
      ensures Abs() == M.PrefetchUpTo(old(Abs()), record, segments, admission, answers, |segments|)
    {
      hide Represents, Lists, I.Inv, I.Midway, M.PrefetchChunk, I.EntriesOk, I.OnePerChunk, M.AllSegmentsOk;
      ghost var p := Abs();
      PrefetchReady(p, record, segments, admission, answers, 0);
      var k: nat := 0;
      while k < |segments|
        invariant k <= |segments| && Indexed() && Listed()
        invariant Abs() == M.PrefetchUpTo(p, record, segments, admission, answers, k)
      {
        PrefetchReady(p, record, segments, admission, answers, k);
        PrefetchChunk(record, record * cfg.maxBatch + k, segments[k].chunk, admission, M.Answer(answers, k));
        k := k + 1;
      }
    }

    /** Hints a batch. Chunk by chunk, `answers` is what the backend answers to the fills it starts. */
    method Prefetch(ranges: seq<ByteRange>, admission: AdmissionClass, answers: seq<bool>)
      returns (result: M.PrefetchResult)
      requires Valid()
      modifies this`slots, this`heads, this`index, this`tickets, this`outcomes, this`next, this`clockHand,
               this`inFlight,
               this`ticketsHeld, this`nonFree, this`counters, this`at, this`on, this`queues, this`requests
      ensures Valid() && (Abs(), result) == M.Prefetch(old(Abs()), ranges, admission, answers)
    {
      hide Represents, Lists, I.Inv, I.PendingLinked, M.PrefetchChunk, CheckBatch, I.Midway, S.Kept,
           ChunkTiling.Inside, I.EntriesOk, I.OnePerChunk, I.TicketsOk, M.AllSegmentsOk;
      ghost var p := Abs();
      S.PrefetchInv(p, ranges, admission, answers);
      var status, chunks := ValidateBatch(ranges);
      if status != Ok {
        return M.Refused(status);
      }
      var record := FreeRecord();
      if record == |tickets| {
        return M.Refused(TicketExhausted);
      }
      var generation := tickets[record].generation + 1;
      tickets := tickets[record := TicketRecord(generation, chunks, 0, true, true)];
      ticketsHeld := ticketsHeld + 1;
      S.OpenRecordInv(p, record, chunks);
      M.BatchSegments(cfg, ranges);
      var segments := ForEachChunk(ranges);
      PrefetchAll(record, segments, admission, answers);
      result := M.Issued(record, generation);
    }

    // ----- tickets -----

    /** What wait() reports once it is awake: the outcomes of the ticket's entries, tallied. A ticket of another
        pool, or of none, is refused at once. */
    method Wait(owner: SlotPool?, record: nat) returns (outcome: W.WaitOutcome)
      requires Valid() && (owner == this ==> record < |tickets|)
      ensures owner != this ==> outcome == W.WaitOutcome(InvalidArgument, 0, 0, 0, 0)
      ensures owner == this ==> tickets[record].chunks <= cfg.maxBatch && outcome == W.Wait(Abs(), record)
    {
      hide I.PendingLinked, Lists, Represents;
      if owner != this {
        return W.WaitOutcome(InvalidArgument, 0, 0, 0, 0);
      }
      TicketChunks(Abs(), record);
      var first := record * cfg.maxBatch;
      M.BlockInside(cfg, record);
      ghost var entries := W.Entries(Abs(), record);
      outcome := W.WaitOutcome(Ok, 0, 0, 0, 0);
      for k := 0 to tickets[record].chunks
        invariant outcome == W.Tally(entries, k)
      {
        var status := outcomes[first + k];
        if outcome.status == Ok && status != Ok && status != Pending {
          outcome := outcome.(status := status);
        }
        match status {
          case Ok => outcome := outcome.(filled := outcome.filled + 1);
          case Pending => outcome := outcome.(pending := outcome.pending + 1);
          case Declined => outcome := outcome.(declined := outcome.declined + 1);
          case PoolExhausted => outcome := outcome.(declined := outcome.declined + 1);
          case QueueExhausted => outcome := outcome.(declined := outcome.declined + 1);
          case _ => outcome := outcome.(failed := outcome.failed + 1);
        }
      }
      if outcome.pending != 0 {
        outcome := outcome.(status := Timeout);
      }
    }

    /** Lets go of a ticket. The caller's ticket is current and held: anything else terminates in the source. */
    method DiscardTicket(record: nat, generation: nat)
      requires Valid() && record < |tickets| && tickets[record].generation == generation && tickets[record].held
      modifies this`tickets, this`ticketsHeld
      ensures Valid() && Abs() == M.DiscardTicket(old(Abs()), record)
    {
      hide I.Inv, I.PendingLinked, Lists, Represents;
      ghost var p := Abs();
      S.DiscardTicketInv(p, record);
      tickets := tickets[record := tickets[record].(held := false)];
      ticketsHeld := ticketsHeld - 1;
      if tickets[record].pending == 0 {
        tickets := tickets[record := tickets[record].(inUse := false)];
      }
      assert Abs() == M.DiscardTicket(p, record);
    }

    // ----- resolve -----

    /** Slots that the first `pinned` leases of `out` name, each counted once. */
    method DistinctSlots(out: array<Handle>, pinned: nat, ghost leases: seq<Lease>) returns (distinct: nat)
      requires pinned == |leases| <= out.Length && forall i :: 0 <= i < pinned ==> out[i] == Held(leases[i])
      ensures distinct == |M.SlotSet(leases)|
    {
      hide M.SlotSet;
      distinct := 0;
      NoSlots();
      var i: nat := 0;
      while i < pinned
        invariant i <= pinned && distinct == |M.SlotSet(leases[..i])|
      {
        var seen := false;
        var j: nat := 0;
        NoSlots();
        while j < i
          invariant j <= i && (seen <==> leases[i].slot in M.SlotSet(leases[..j]))
        {
          if out[j].lease.slot == out[i].lease.slot {
            seen := true;
          }
          SlotSetMore(leases, j);
          j := j + 1;
        }
        distinct := distinct + if seen then 0 else 1;
        SlotSetMore(leases, i);
        i := i + 1;
      }
      assert leases[..pinned] == leases;
    }

    /** An access by a resolve: the CLOCK bit is set, a prefetch is consumed, and the slot is pinned. */
    method Access(slot: nat, segment: Segment) returns (lease: Lease)
      requires Indexed() && slot < |slots| && SegmentOk(cfg, segment)
      modifies this`slots, this`pinsTotal, this`consumed
      ensures Indexed() && Abs() == M.Pin(M.Access(old(Abs()), slot), slot)
      ensures lease == LeaseFor(cfg, slot, old(slots[slot].generation), segment)
    {
      hide Represents, LeaseFor;
      if slots[slot].hintUnconsumed {
        consumed := consumed + 1;
      }
      slots := slots[slot := slots[slot].(referenced := true, hintUnconsumed := false)];
      SameLive(indexShift, index, at, old(slots), slots);
      lease := MakeLease(slot, segment);
    }

    /** The miss of a resolve: a victim claimed for the chunk and its fill submitted, or the reason why not. */
    method ResolveMiss(chunk: nat, accepted: bool, out: array<Handle>, pinned: nat, ghost leases: seq<Lease>)
      returns (slot: int, failure: Status)
      requires Indexed() && Listed() && I.EntriesOk(Abs()) && Lookup(slots, chunk) == NONE
      requires pinned == |leases| <= out.Length && forall i :: 0 <= i < pinned ==> out[i] == Held(leases[i])
      modifies this`slots, this`heads, this`index, this`at, this`nonFree, this`clockHand, this`counters,
               this`inFlight, this`requests
      ensures Indexed() && heads == old(heads) && (slot == NONE ==> failure != Ok)
      ensures var (claimed, victim) :=
          M.Claim(old(Abs()).(stats := old(counters).(resolveMisses := old(counters).resolveMisses + 1)),
                  AdmissionClass.Declared);
        && slot == victim
        && (slot == NONE ==> Abs() == claimed && failure == if |M.SlotSet(leases)| >= cfg.numSlots then BatchTooLarge
             else PoolExhausted)
        && (slot != NONE ==> (Abs(), failure) == M.StartFill(claimed, slot, chunk, accepted))
    {
      hide Represents, I.EntriesOk, M.Claim, M.StartFill, Lists;
      counters := counters.(resolveMisses := counters.resolveMisses + 1);
      ghost var p := Abs();
      ClaimedRoom(p, AdmissionClass.Declared, chunk);
      slot := ClaimVictim(AdmissionClass.Declared);
      if slot == NONE {
        var own := DistinctSlots(out, pinned, leases);
        return NONE, if own >= cfg.numSlots then BatchTooLarge else PoolExhausted;
      }
      EntriesFrame(old(Abs()), p);
      NothingQueued(p, heads, next, queues, slot);
      failure := StartFill(slot, chunk, accepted);
    }

    /** One chunk of a resolve: its lease joins the first `pinned` of `out`, or the resolve fails. */
    method ResolveChunk(segment: Segment, accepted: bool, out: array<Handle>, pinned: nat, ghost leases: seq<Lease>)
      returns (failure: Status)
      requires Indexed() && Listed() && I.OnePerChunk(slots) && I.EntriesOk(Abs()) && SegmentOk(cfg, segment)
      requires pinned == |leases| < out.Length && forall i :: 0 <= i < pinned ==> out[i] == Held(leases[i])
      requires M.LeasesInPool(Abs(), leases)
      modifies out, this`slots, this`heads, this`index, this`at, this`nonFree, this`clockHand, this`counters,
               this`inFlight,
               this`pinsTotal, this`requests, this`consumed
      ensures Indexed() && heads == old(heads)
      ensures var b := M.ResolveChunk(old(Abs()), leases, segment, accepted);
        && Abs() == b.pool && failure == b.failure
        && (failure != Ok ==> b.leases == leases && out[..] == old(out[..]))
        && (failure == Ok ==> |b.leases| == pinned + 1 && b.leases[..pinned] == leases
                              && out[..] == old(out[..])[pinned := Held(b.leases[pinned])])
    {
      hide Represents, I.EntriesOk, M.Claim, M.StartFill, Lists, M.SlotSet, LeaseFor;
      var slot := IndexFind(segment.chunk);
      var lease;
      if slot != NONE {
        lease := Found(slot, segment);
        failure := Ok;
      } else {
        slot, failure := ResolveMiss(segment.chunk, accepted, out, pinned, leases);
        if failure != Ok {
          return;
        }
        lease := Access(slot, segment);
      }
      out[pinned] := Held(lease);
    }

    /** A chunk that a slot is live for is a hit if it is ready, and otherwise joins the fill. */
    method Found(slot: nat, segment: Segment) returns (lease: Lease)
      requires Indexed() && slot < |slots| && SegmentOk(cfg, segment)
      modifies this`slots, this`pinsTotal, this`consumed, this`counters
      ensures Indexed() && lease == LeaseFor(cfg, slot, old(slots[slot].generation), segment)
      ensures Abs() == M.Pin(M.Access(old(Abs()).(stats := if old(slots[slot].state.Ready?)
        then old(counters).(resolveHits := old(counters).resolveHits + 1) else M.Coalesced(old(counters))), slot), slot)
    {
      hide Represents, LeaseFor;
      if slots[slot].state.Ready? {
        counters := counters.(resolveHits := counters.resolveHits + 1);
      } else {
        counters := counters.(coalesced := counters.coalesced + 1);
      }
      lease := Access(slot, segment);
    }

    /** Drops the pins of the first `pinned` leases of `out` and empties their places. */
    method Unwind(out: array<Handle>, pinned: nat, ghost leases: seq<Lease>)
      requires Indexed() && M.LeasesInPool(Abs(), leases)
      requires pinned == |leases| <= out.Length && forall i :: 0 <= i < pinned ==> out[i] == Held(leases[i])
      modifies out, this`slots, this`index, this`at, this`nonFree, this`pinsTotal
      ensures Indexed() && Abs() == M.UnpinAll(old(Abs()), leases)
      ensures out[..] == Handles([], pinned) + old(out[pinned..])
    {
      hide Represents, M.Unpin;
      ghost var p := Abs();
      var k: nat := 0;
      while k < pinned
        invariant k <= pinned && Indexed() && Abs() == M.UnpinUpTo(p, leases, k)
        invariant forall i :: 0 <= i < out.Length ==> out[i] == if i < k then Empty else old(out[i])
      {
        UnpinLocked(out[k].lease.slot);
        out[k] := Empty;
        k := k + 1;
      }
    }

    /** Resets one lease object: what it holds, if anything, is released. */
    method ResetLease(out: array<Handle>, k: nat)
      requires Valid() && k < out.Length
      requires out[k].Held? ==>
        var lease := out[k].lease;
        lease.slot < |slots| && slots[lease.slot].generation == lease.generation && slots[lease.slot].pins != 0
      modifies out, this`slots, this`index, this`at, this`nonFree, this`pinsTotal
      ensures Valid() && out[..] == old(out[..])[k := Empty]
      ensures Abs() == if old(out[k]).Held? then M.Unpin(old(Abs()), old(out[k]).lease.slot) else old(Abs())
    {
      hide Represents, M.Unpin, I.Inv, I.PendingLinked, Lists;
      if out[k].Held? {
        var lease := out[k].lease;
        out[k] := Empty;
        ReleaseLease(lease);
      }
    }

    /** Releases the leases already held in the first `count` entries of `out`, each in its own section. */
    method ReleaseAll(out: array<Handle>, count: nat)
      requires Valid() && count <= out.Length && Releasable(Abs(), out[..count])
      modifies out, this`slots, this`index, this`at, this`nonFree, this`pinsTotal
      ensures Valid() && Abs() == M.UnpinAll(old(Abs()), Leases(old(out[..count])))
      ensures out[..] == Handles([], count) + old(out[count..])
    {
      hide Represents, M.Unpin, M.UnpinAll, I.Inv, I.PendingLinked, Leases, Releasable, Released, Lists;
      ghost var p := Abs();
      ghost var handles := out[..count];
      var k: nat := 0;
      ReleaseStart(p, handles);
      while k < count
        invariant k <= count && Valid() && Abs() == Released(p, handles, k)
        invariant forall i :: 0 <= i < out.Length ==> out[i] == if i < k then Empty else old(out[i])
      {
        ReleaseStep(p, handles, k);
        ResetLease(out, k);
        k := k + 1;
      }
    }

    /** Takes a lease for every segment until one fails. */
    method ResolveAll(segments: seq<Segment>, answers: seq<bool>, out: array<Handle>)
      returns (failure: Status, pinned: nat, ghost leases: seq<Lease>)
      requires Valid() && |segments| <= out.Length && M.AllSegmentsOk(cfg, segments)
      modifies out, this`slots, this`heads, this`index, this`at, this`nonFree, this`clockHand, this`counters,
               this`inFlight,
               this`pinsTotal, this`requests, this`consumed
      ensures Indexed() && heads == old(heads)
      ensures M.Progress(Abs(), leases, failure) == M.ResolveUpTo(old(Abs()), segments, answers, |segments|)
      ensures pinned == |leases| <= |segments| && (failure == Ok ==> pinned == |segments|)
      ensures forall i :: 0 <= i < out.Length ==> out[i] == if i < pinned then Held(leases[i]) else old(out[i])
    {
      hide Represents, I.Inv, I.PendingLinked, Lists, M.ResolveChunk, M.ResolveUpTo, M.AllSegmentsOk, I.EntriesOk,
           I.OnePerChunk;
      ghost var p := Abs();
      ResolveNone(p, segments, answers);
      failure, pinned, leases := Ok, 0, [];
      var k: nat := 0;
      while k < |segments|
        invariant k <= |segments| && Indexed() && heads == old(heads)
        invariant M.Progress(Abs(), leases, failure) == M.ResolveUpTo(p, segments, answers, k)
        invariant pinned == |leases| <= k && (failure == Ok ==> pinned == k)
        invariant forall i :: 0 <= i < out.Length ==> out[i] == if i < pinned then Held(leases[i]) else old(out[i])
      {
        ResolveReady(p, segments, answers, k);
        if failure == Ok {
          ghost var b := M.ResolveChunk(Abs(), leases, segments[k], M.Answer(answers, k));
          failure := ResolveChunk(segments[k], M.Answer(answers, k), out, pinned, leases);
          leases := b.leases;
          pinned := if failure == Ok then pinned + 1 else pinned;
        }
        k := k + 1;
      }
    }

    /** Resolve up to its wait. A call that does not get past validation leaves the caller's leases alone;
        any other first releases those it is about to overwrite, and on failure has emptied them. */
    method ResolveBegin(ranges: seq<ByteRange>, out: array<Handle>, answers: seq<bool>)
      returns (failure: Status, pinned: nat, ghost leases: seq<Lease>)
      requires Valid()
      requires (Proceeds(cfg, ranges, out.Length) ==> Releasable(Abs(), out[..CheckBatch(cfg, ranges).chunks]))
      modifies out, this`slots, this`heads, this`index, this`at, this`nonFree, this`clockHand, this`counters,
               this`inFlight,
               this`pinsTotal, this`requests, this`consumed
      ensures Valid() && pinned == |leases| <= out.Length
      ensures !Proceeds(cfg, ranges, out.Length) ==>
        && Abs() == old(Abs()) && leases == []
        && failure == (if CheckBatch(cfg, ranges).status != Ok then CheckBatch(cfg, ranges).status else BatchTooLarge)
      ensures Proceeds(cfg, ranges, out.Length) ==>
        var p := M.UnpinAll(old(Abs()), Leases(old(out[..CheckBatch(cfg, ranges).chunks])));
        && M.Progress(Abs(), leases, failure) == M.ResolveBegin(p, ranges, out.Length, answers)
        && |leases| <= CheckBatch(cfg, ranges).chunks
      ensures out[..] == SpanAfter(cfg, old(out[..]), ranges, leases)
      ensures failure != Ok ==> (NoneHeld(out[..]) <==> Emptied(cfg, old(out[..]), ranges))
    {
      hide NoneHeld, Emptied, Represents, I.Inv, I.PendingLinked, Lists, CheckBatch, Releasable, Leases, M.UnpinAll,
           M.ResolveUpTo, M.AllSegmentsOk, S.PinsAdded, S.AllHold, S.Advances, S.SamePins;
      FailedSpan(cfg, out[..], ranges);
      var status, chunks := ValidateBatch(ranges);
      if status != Ok {
        return status, 0, [];
      }
      if out.Length < chunks {
        return BatchTooLarge, 0, [];
      }
      ReleaseAll(out, chunks);
      ghost var p := Abs();
      R.ResolveBeginInv(p, ranges, out.Length, answers);
      M.BatchSegments(cfg, ranges);
      var segments := ForEachChunk(ranges);
      failure, pinned, leases := ResolveAll(segments, answers, out);
      if failure != Ok {
        Unwind(out, pinned, leases);
        pinned, leases := 0, [];
      }
    }

    /** Resolve after its wait: the pins it took become the caller's leases, or are all dropped. */
    method ResolveFinish(out: array<Handle>, pinned: nat, ghost leases: seq<Lease>) returns (failure: Status)
      requires Valid() && M.LeasesInPool(Abs(), leases) && R.CanUnpin(Abs(), leases) && !M.StillFilling(Abs(), leases)
      requires pinned == |leases| <= out.Length && forall i :: 0 <= i < pinned ==> out[i] == Held(leases[i])
      modifies out, this`slots, this`index, this`at, this`nonFree, this`pinsTotal
      ensures Valid()
      ensures var b := M.ResolveFinish(old(Abs()), leases);
        && Abs() == b.pool && failure == b.failure
        && |b.leases| <= pinned && out[..] == Handles(b.leases, pinned) + old(out[pinned..])
    {
      hide Represents, I.Inv, I.PendingLinked, Lists, M.UnpinAll, R.CanUnpin, M.StillFilling, R.Unpinned;
      ghost var p := Abs();
      R.ResolveFinishInv(p, leases);
      failure := Ok;
      var k: nat := 0;
      while k < pinned
        invariant k <= pinned && failure == Ok && M.FirstFailure(p, leases, k) == M.FirstFailure(p, leases, 0)
      {
        if slots[out[k].lease.slot].state.Failed? {
          failure := slots[out[k].lease.slot].failure;
          break;
        }
        k := k + 1;
      }
      if failure != Ok {
        Unwind(out, pinned, leases);
      }
    }

    // ----- try_resolve -----

    method AllResident(segments: seq<Segment>) returns (all: bool)
      requires Indexed() && I.OnePerChunk(slots)
      ensures all <==> M.AllReady(Abs(), segments)
    {
      hide Represents, I.OnePerChunk;
      all := true;
      for k := 0 to |segments|
        invariant all <==> M.AllReady(Abs(), segments[..k])
      {
        var slot := IndexFind(segments[k].chunk);
        all := all && slot != NONE && slots[slot].state.Ready?;
        AllReadyMore(Abs(), segments, k);
      }
      assert segments[..|segments|] == segments;
    }

    /** A hit: an access to the slot that is live for the segment's chunk. */
    method Hit(segment: Segment, ghost leases: seq<Lease>) returns (lease: Lease)
      requires Indexed() && I.OnePerChunk(slots) && Lookup(slots, segment.chunk) != NONE && SegmentOk(cfg, segment)
      requires M.LeasesInPool(Abs(), leases)
      modifies this`slots, this`counters, this`pinsTotal, this`consumed
      ensures Indexed()
      ensures M.Progress(Abs(), leases + [lease], Ok) ==
        M.AccessAndPin(old(Abs()).(stats := old(counters).(resolveHits := old(counters).resolveHits + 1)), leases,
                       old(Lookup(slots, segment.chunk)), segment)
    {
      hide Represents, I.OnePerChunk, LeaseFor;
      var slot := IndexFind(segment.chunk);
      counters := counters.(resolveHits := counters.resolveHits + 1);
      lease := Access(slot, segment);
    }

    /** Takes a lease for every segment, all of whose chunks are ready. */
    method HitAll(segments: seq<Segment>, out: array<Handle>) returns (pinned: nat, ghost leases: seq<Lease>)
      requires Valid() && |segments| <= out.Length && M.AllSegmentsOk(cfg, segments) && M.AllReady(Abs(), segments)
      modifies out, this`slots, this`counters, this`pinsTotal, this`consumed
      ensures Indexed() && M.Progress(Abs(), leases, Ok) == M.HitUpTo(old(Abs()), segments, |segments|)
      ensures pinned == |leases| == |segments|
      ensures forall i :: 0 <= i < out.Length ==> out[i] == if i < pinned then Held(leases[i]) else old(out[i])
    {
      hide Represents, I.Inv, I.PendingLinked, Lists, M.AllSegmentsOk, M.AllReady, M.AccessAndPin, M.HitUpTo,
           I.OnePerChunk, LeaseFor;
      ghost var p := Abs();
      HitNone(p, segments);
      pinned, leases := 0, [];
      while pinned < |segments|
        invariant pinned == |leases| <= |segments| && Indexed()
        invariant M.Progress(Abs(), leases, Ok) == M.HitUpTo(p, segments, pinned)
        invariant forall i :: 0 <= i < out.Length ==> out[i] == if i < pinned then Held(leases[i]) else old(out[i])
      {
        HitReady(p, segments, pinned);
        var lease := Hit(segments[pinned], leases);
        out[pinned] := Held(lease);
        leases := leases + [lease];
        pinned := pinned + 1;
      }
    }

    /** try_resolve: leases for the whole batch if all of it is ready, and no I/O either way. */
    method TryResolve(ranges: seq<ByteRange>, out: array<Handle>)
      returns (failure: Status, pinned: nat, ghost leases: seq<Lease>)
      requires Valid()
      requires (Proceeds(cfg, ranges, out.Length) ==> Releasable(Abs(), out[..CheckBatch(cfg, ranges).chunks]))
      modifies out, this`slots, this`index, this`at, this`nonFree, this`counters, this`pinsTotal, this`consumed
      ensures Valid() && pinned == |leases| <= out.Length
      ensures !Proceeds(cfg, ranges, out.Length) ==>
        && Abs() == old(Abs()) && leases == []
        && failure == (if CheckBatch(cfg, ranges).status != Ok then CheckBatch(cfg, ranges).status else BatchTooLarge)
      ensures Proceeds(cfg, ranges, out.Length) ==>
        var p := M.UnpinAll(old(Abs()), Leases(old(out[..CheckBatch(cfg, ranges).chunks])));
        && M.Progress(Abs(), leases, failure) == M.TryResolve(p, ranges, out.Length)
        && |leases| <= CheckBatch(cfg, ranges).chunks
      ensures out[..] == SpanAfter(cfg, old(out[..]), ranges, leases)
      ensures failure != Ok ==> (NoneHeld(out[..]) <==> Emptied(cfg, old(out[..]), ranges))
    {
      hide NoneHeld, Emptied, Represents, I.Inv, I.PendingLinked, Lists, CheckBatch, Releasable, Leases, M.UnpinAll,
           M.HitUpTo, M.AllSegmentsOk, M.AllReady,
           S.PinsAdded, S.AllHold, S.Advances, S.SamePins, R.SameFills, R.AllSlotsReady, I.OnePerChunk;
      FailedSpan(cfg, out[..], ranges);
      var status, chunks := ValidateBatch(ranges);
      if status != Ok {
        return status, 0, [];
      }
      if out.Length < chunks {
        return BatchTooLarge, 0, [];
      }
      ReleaseAll(out, chunks);
      R.TryResolveInv(Abs(), ranges, out.Length);
      UniqueChunks(Abs());
      M.BatchSegments(cfg, ranges);
      var segments := ForEachChunk(ranges);
      var all := AllResident(segments);
      if !all {
        return NotResident, 0, [];
      }
      pinned, leases := HitAll(segments, out);
      failure := Ok;
    }

    // ----- demotion -----

    /** Clears the reference bits of the chunks of one range. */
    method Demote(segments: seq<Segment>, ghost start: seq<Slot>, ghost named: iset<nat>) returns (ghost now: iset<nat>)
      requires Indexed() && I.OnePerChunk(start) && slots == Demoted(start, named)
      modifies this`slots
      ensures Indexed() && slots == Demoted(start, now)
      ensures forall chunk: nat :: chunk in now <==> chunk in named || ChunkIn(segments, |segments|, chunk)
    {
      hide Represents, I.OnePerChunk, Demoted, M.Shaped;
      now := named;
      var j: nat := 0;
      while j < |segments|
        invariant j <= |segments| && Indexed() && slots == Demoted(start, now)
        invariant forall chunk: nat :: chunk in now <==> chunk in named || ChunkIn(segments, j, chunk)
      {
        DemoteOne(start, now, segments[j].chunk);
        var slot := IndexFind(segments[j].chunk);
        if slot != NONE {
          ClearBit(slot);
        }
        now := now + iset{segments[j].chunk};
        j := j + 1;
      }
    }

    method ClearBit(slot: nat)
      requires Indexed() && slot < |slots|
      modifies this`slots
      ensures Indexed() && slots == old(slots)[slot := old(slots[slot]).(referenced := false)]
    {
      hide Represents;
      slots := slots[slot := slots[slot].(referenced := false)];
      SameLive(indexShift, index, at, old(slots), slots);
    }

    /** Clears the reference bit of every resident chunk that a valid range of the batch names. */
    method WontNeed(ranges: seq<ByteRange>)
      requires Valid()
      modifies this`slots
      ensures Valid() && Abs() == M.WontNeed(old(Abs()), ranges)
    {
      hide Represents, I.Inv, I.PendingLinked, Lists, I.OnePerChunk, SegmentOk, Demoted, M.Names;
      ghost var p := Abs();
      S.WontNeedInv(p, ranges);
      UniqueChunks(p);
      ghost var named := iset{};
      DemoteNone(slots);
      NamesNone(cfg, ranges);
      var k: nat := 0;
      while k < |ranges|
        invariant k <= |ranges| && Indexed() && slots == Demoted(p.slots, named)
        invariant forall chunk: nat :: chunk in named <==> M.Names(cfg, ranges, k, chunk)
      {
        if ValidateRange(ranges[k], cfg.sourceBytes) == Ok {
          var segments := ForEachChunk([ranges[k]]);
          RangeNames(cfg, ranges, k, segments);
          named := Demote(segments, p.slots, named);
        } else {
          InvalidNames(cfg, ranges, k);
        }
        k := k + 1;
      }
      DemotedAll(p, ranges, named);
    }

    // ----- observation -----

    /** What stats() returns: the counters as they are, and the slots counted by what they are doing; those
        filling are the fills in flight. */
    method GetStats() returns (snapshot: Snapshot)
      requires Valid()
      ensures snapshot.counters == counters && snapshot.total == |slots|
      ensures snapshot.pinned == Sum(slots, PinnedWeight) && snapshot.ready == Sum(slots, ReadyWeight)
      ensures snapshot.filling == inFlight <= snapshot.counters.highWater <= snapshot.total
    {
      hide I.PendingLinked, Lists, Represents;
      var pinned, ready, filling: nat := 0, 0, 0;
      for k := 0 to |slots|
        invariant pinned == Sum(slots[..k], PinnedWeight) && ready == Sum(slots[..k], ReadyWeight)
        invariant filling == Sum(slots[..k], I.FillingWeight)
      {
        var s := slots[k];
        assert slots[..k + 1] == slots[..k] + [s];
        CountOneMore(slots[..k], s);
        pinned := pinned + if s.pins != 0 then 1 else 0;
        ready := ready + if s.state.Ready? then 1 else 0;
        filling := filling + if s.state.Filling? then 1 else 0;
      }
      assert slots[..|slots|] == slots;
      FillingBelow(Abs());
      snapshot := Snapshot(|slots|, pinned, ready, filling, counters);
    }

    // ----- creation -----

    constructor (config: Config)
      requires config.Valid()
      ensures Valid() && Abs() == M.Create(config)
    {
      hide I.Inv, I.PendingLinked, Represents, Lists;
      var n: nat := config.numSlots;
      var bits: nat := CeilLog2(2 * n);
      TableFits(n);
      var entries: nat := config.maxTickets * config.maxBatch;
      cfg := config;
      indexShift := 64 - bits;
      slots := seq(n, _ => Slot(0, 0, 0, Free, Ok, false, false));
      heads := seq(n, _ => NONE);
      index := seq(Pow2(bits), _ => NONE);
      tickets := seq(config.maxTickets, _ => TicketRecord(0, 0, 0, false, false));
      outcomes := seq(entries, _ => Pending);
      next := seq(entries, _ => NONE);
      on := seq(entries, _ => NONE);
      queues := seq(n, _ => []);
      clockHand, inFlight, pinsTotal, ticketsHeld, nonFree := 0, 0, 0, 0, 0;
      counters := Stats(0, 0, 0, 0, 0, 0, 0, 0, 0, 0, 0, 0, 0, 0);
      at, consumed, requests := map[], 0, map[];
      new;
      I.CreateInv(config);
      CreatedLinked(config);
      EmptyTable(indexShift, index, slots);
      EmptyLists(heads, next, on, queues);
    }

    /** Registration: exactly the configurations the pool can serve are accepted. */
    static method Create(config: Config, storage: nat) returns (status: Status, pool: SlotPool?)
      ensures status == Ok <==> config.Valid() && storage == config.slotBytes * config.numSlots
      ensures status == Ok ==> pool != null && fresh(pool) && pool.Valid() && pool.Abs() == M.Create(config)
      ensures status != Ok ==> status == InvalidArgument && pool == null
    {
      if config.slotBytes == 0 || config.numSlots == 0 || config.numSlots >= 0xFFFF_FFFF || config.sourceBytes == 0
         || config.maxTickets == 0 || config.maxBatch == 0 || config.maxTickets >= 0xFFFF_FFFF {
        return InvalidArgument, null;
      }
      DivBounds(U64_MAX, config.numSlots, config.slotBytes - 1);
      DivBounds(U64_MAX, config.maxTickets, config.maxBatch - 1);
      if config.slotBytes > U64_MAX / config.numSlots || storage != config.slotBytes * config.numSlots {
        return InvalidArgument, null;
      }
      if config.maxBatch > U64_MAX / config.maxTickets || config.maxBatch * config.maxTickets >= 0xFFFF_FFFF {
        return InvalidArgument, null;
      }
      status := Ok;
      pool := new SlotPool(config);
    }
  }
}
