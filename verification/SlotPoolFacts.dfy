/** What the methods of class SlotPool rest on: facts about the index, the waiter lists and the functions
    of PoolModel, over values. */
module SlotPoolFacts {
  import opened Transfer
  import opened Sums
  import opened PoolState
  import opened ClockSweep
  import opened ChunkTiling
  import opened ChunkIndex
  import opened WaiterLists
  import M = PoolModel
  import I = PoolInvariant
  import S = PoolSteps
  import R = PoolResolve

  /** What a caller's Lease object holds: nothing, or a pin. */
  datatype Handle = Empty | Held(lease: Lease)

  function Home(shift: nat): nat -> nat { (chunk: nat) => Hash(chunk, shift) }

  /** The index represents the given slots: the live ones, by chunk, at most half full. */
  ghost predicate Represents(shift: nat, index: seq<int>, at: map<int, nat>, slots: seq<Slot>) {
    && 31 <= shift < 64 && |index| == Pow2(64 - shift) && 2 * |slots| <= |index|
    && IndexOk(index, slots, at, Home(shift))
    && forall s :: s in at <==> 0 <= s < |slots| && slots[s].Live()
  }

  lemma SameLive(shift: nat, index: seq<int>, at: map<int, nat>, before: seq<Slot>, after: seq<Slot>)
    requires Represents(shift, index, at, before) && |after| == |before|
    requires forall i :: 0 <= i < |before| ==>
        after[i].Live() == before[i].Live() && (before[i].Live() ==> after[i].chunk == before[i].chunk)
    ensures Represents(shift, index, at, after)
  {
    IndexFrame(index, before, after, at, Home(shift));
  }

  /** Clearing reference bits is invisible to the index. */
  lemma LiveAfterClear(shift: nat, index: seq<int>, at: map<int, nat>, start: seq<Slot>, hand: nat, cleared: nat)
    requires Represents(shift, index, at, start) && hand < |start| && cleared <= |start|
    ensures Represents(shift, index, at, ClearBits(start, hand, cleared))
  {
    SameLive(shift, index, at, start, ClearBits(start, hand, cleared));
  }

  /** A list holds its slot's linked entries and no others, so it may be started afresh when there are none. */
  lemma NothingQueued(p: Pool, heads: seq<int>, next: seq<int>, queues: seq<seq<nat>>, slot: nat)
    requires M.Shaped(p) && I.EntriesOk(p) && slot < |p.slots| == |heads| && !p.slots[slot].state.Filling?
    requires Lists(heads, next, p.on, queues)
    ensures heads[slot] == NONE
  {
    forall e | 0 <= e < |p.on| ensures p.on[e] != slot { assert I.EntryOk(p, e); }
    HeadMeaning(heads, next, p.on, queues, slot);
  }

  /** The record of a delivered entry, after its count went down. */
  function CountedDown(t: TicketRecord): TicketRecord {
    var pending := t.pending - 1;
    t.(pending := pending, inUse := if pending == 0 && !t.held then false else t.inUse)
  }

  /** Taking entry `e` off its list and counting it in its record keeps every record's count right. */
  lemma CountedOk(cfg: Config, on: seq<int>, before: seq<TicketRecord>, tickets: seq<TicketRecord>, e: nat)
    requires cfg.Valid() && e < |on| == cfg.maxTickets * cfg.maxBatch && |tickets| == |before| == cfg.maxTickets
    requires forall r :: 0 <= r < |before| ==> tickets[r] == M.WithPending(before[r], M.Linked(on, cfg, r))
    requires on[e] != NONE
    ensures var r := I.Owner(cfg, e);
      var tickets' := tickets[r := CountedDown(tickets[r])];
      forall t :: 0 <= t < |before| ==> tickets'[t] == M.WithPending(before[t], M.Linked(on[e := NONE], cfg, t))
  {
    var r := I.Owner(cfg, e);
    var tickets' := tickets[r := CountedDown(tickets[r])];
    forall t | 0 <= t < |before| ensures tickets'[t] == M.WithPending(before[t], M.Linked(on[e := NONE], cfg, t)) {
      I.LinkedUpdate(on, cfg, t, e, NONE);
      SumBounds(M.Block(on[e := NONE], cfg, t), M.LinkedWeight);
    }
  }

  /** Where a walk over a slot's list stands: what it has taken off has the outcome, the rest is as before. */
  predicate Walked(p: Pool, slot: nat, status: Status, on: seq<int>, outcomes: seq<Status>, tickets: seq<TicketRecord>)
    requires M.Shaped(p)
  {
    && |on| == |outcomes| == |p.on| && |tickets| == |p.tickets|
    && (forall e :: 0 <= e < |on| ==>
          (on[e] == p.on[e] && outcomes[e] == p.outcomes[e])
              || (p.on[e] == slot && on[e] == NONE && outcomes[e] == status))
    && (forall r :: 0 <= r < |tickets| ==> tickets[r] == M.WithPending(p.tickets[r], M.Linked(on, p.cfg, r)))
  }

  lemma WalkSizes(p: Pool, slot: nat, status: Status, on: seq<int>, outcomes: seq<Status>, tickets: seq<TicketRecord>)
    requires M.Shaped(p) && Walked(p, slot, status, on, outcomes, tickets)
    ensures |on| == |outcomes| == |p.on| && |tickets| == |p.tickets|
  {
  }

  lemma WalkStart(p: Pool, slot: nat, status: Status)
    requires M.Shaped(p) && I.TicketsOk(p)
    ensures Walked(p, slot, status, p.on, p.outcomes, p.tickets)
  {
    forall r | 0 <= r < |p.tickets| ensures p.tickets[r] == M.WithPending(p.tickets[r], M.Linked(p.on, p.cfg, r)) {
      assert I.TicketOk(p, r);
    }
  }

  lemma WalkStep(p: Pool, slot: nat, status: Status, on: seq<int>, outcomes: seq<Status>, tickets: seq<TicketRecord>,
                 e: nat)
    requires M.Shaped(p) && Walked(p, slot, status, on, outcomes, tickets) && e < |on| && on[e] == slot
    ensures var r := I.Owner(p.cfg, e);
      r < |tickets| && Walked(p, slot, status, on[e := NONE], outcomes[e := status],
                              tickets[r := CountedDown(tickets[r])])
  {
    hide M.Linked, M.WithPending, I.Owner;
    CountedOk(p.cfg, on, p.tickets, tickets, e);
  }

  lemma WalkEnd(p: Pool, slot: nat, status: Status, on: seq<int>, outcomes: seq<Status>, tickets: seq<TicketRecord>)
    requires M.Shaped(p) && Walked(p, slot, status, on, outcomes, tickets)
    requires forall e :: 0 <= e < |on| ==> on[e] != slot
    ensures p.(on := on, outcomes := outcomes, tickets := tickets) == M.Publish(p, slot, status)
  {
    hide M.Linked, M.WithPending;
    var q := M.Publish(p, slot, status);
    assert on == q.on;
  }

  /** A failed fill is counted, and a prefetch it wasted as well. */
  function Failing(stats: Stats, unconsumed: bool): Stats {
    stats.(fillsFailed := stats.fillsFailed + 1,
           hintUnconsumed := if unconsumed then stats.hintUnconsumed + 1 else stats.hintUnconsumed)
  }

  lemma TicketsSide(p: Pool)
    requires I.Inv(p)
    ensures M.Shaped(p) && I.TicketsOk(p) && I.EntriesOk(p)
  {
  }

  lemma TicketsApart(p: Pool, q: Pool)
    requires M.Shaped(p) && I.TicketsOk(p) && M.SameTickets(p, q)
    ensures I.TicketsOk(q)
  {
    forall r | 0 <= r < |q.tickets| ensures I.TicketOk(q, r) { assert I.TicketOk(p, r); }
  }

  lemma PinsNonNegative(p: Pool, slot: nat)
    requires I.Inv(p) && slot < |p.slots|
    ensures 0 <= p.slots[slot].pins
  {
    S.SlotIsOk(p, slot);
  }

  // ----- lookups and misses -----

  /** With one live slot per chunk, the live slot an index finds is the one. */
  lemma OnlyLookup(slots: seq<Slot>, chunk: nat, slot: int)
    requires I.OnePerChunk(slots)
    requires if slot == NONE then forall i :: 0 <= i < |slots| && slots[i].Live() ==> slots[i].chunk != chunk
             else 0 <= slot < |slots| && slots[slot].Live() && slots[slot].chunk == chunk
    ensures slot == Lookup(slots, chunk)
  {
  }

  /** What a claim leaves for the fill it makes room for. */
  lemma ClaimedRoom(p: Pool, admission: AdmissionClass, chunk: nat)
    requires M.Shaped(p) && Lookup(p.slots, chunk) == NONE
    ensures var (q, victim) := M.Claim(p, admission);
      && (victim != NONE ==> q.slots[victim].state.Free? && !p.slots[victim].state.Filling?)
      && forall i :: 0 <= i < |q.slots| && q.slots[i].Live() ==> q.slots[i].chunk != chunk
  {
    hide Sweep;
    SweepChoice(p.slots, p.hand, admission);
  }

  /** A hint is counted as issued before anything else is known of it. */
  function Issue(p: Pool): Pool { p.(stats := p.stats.(hintIssued := p.stats.hintIssued + 1)) }

  lemma IssueFirst(p: Pool, admission: AdmissionClass)
    requires M.Shaped(p)
    ensures M.Claim(Issue(p), admission) == (Issue(M.Claim(p, admission).0), M.Claim(p, admission).1)
  {
    hide Sweep, ClearBits;
  }

  /** The miss of a prefetch, its hint already counted as issued: the slot whose fill it started, or the
      reason there is none. */
  function Missed(p: Pool, chunk: nat, admission: AdmissionClass, accepted: bool): (r: (Pool, int, Status))
    requires M.Shaped(p)
    ensures M.SameTickets(p, r.0) && (r.1 == NONE || 0 <= r.1 < |p.slots|)
  {
    var (claimed, victim) := M.Claim(p, admission);
    if victim == NONE then
      if admission.Speculative? then
        (claimed.(stats := claimed.stats.(hintDeclined := claimed.stats.hintDeclined + 1)), NONE, Declined)
      else
        (Denied(claimed), NONE, PoolExhausted)
    else
      var (filling, started) := M.StartFill(claimed, victim, chunk, accepted);
      if started != Ok then (Denied(filling), NONE, started) else (Flagged(filling, victim), victim, Pending)
  }

  /** An admission failure is counted. */
  function Denied(p: Pool): (q: Pool) {
    p.(stats := p.stats.(admissionFailures := p.stats.admissionFailures + 1))
  }

  /** An admitted hint: its slot is flagged until the prefetch is consumed or wasted. */
  function Flagged(p: Pool, slot: nat): (q: Pool)
    requires M.Shaped(p) && slot < |p.slots|
    ensures M.SameTickets(p, q)
  {
    p.(slots := p.slots[slot := p.slots[slot].(hintUnconsumed := true)],
       stats := p.stats.(hintAdmitted := p.stats.hintAdmitted + 1))
  }

  lemma MissedIsPrefetch(p: Pool, r: nat, e: nat, chunk: nat, admission: AdmissionClass, accepted: bool)
    requires M.Shaped(p) && r < |p.tickets| && e < |p.on| && Lookup(p.slots, chunk) == NONE
    ensures var (q, slot, outcome) := Missed(Issue(p), chunk, admission, accepted);
      && M.PrefetchChunk(p, r, e, chunk, admission, accepted)
           == (if slot == NONE then M.Settled(q, e, outcome) else M.Join(q, r, e, slot))
      && (slot != NONE ==> q.slots[slot].state.Filling?)
  {
    hide M.Claim, M.Settled, M.Join;
    IssueFirst(p, admission);
  }

  // ----- whole prefetches -----

  /** Before its k-th chunk, a prefetch finds the k-th entry of its record unlinked. */
  lemma PrefetchReady(p: Pool, r: nat, segments: seq<Segment>, admission: AdmissionClass, answers: seq<bool>, k: nat)
    requires I.Inv(p) && M.Shaped(p) && r < |p.tickets| && I.Midway(p, r, 0)
    requires k <= |segments| == p.tickets[r].chunks <= p.cfg.maxBatch && M.AllSegmentsOk(p.cfg, segments)
    ensures var q := M.PrefetchUpTo(p, r, segments, admission, answers, k);
      && I.OnePerChunk(q.slots) && I.EntriesOk(q)
      && (k < |segments| ==>
            var e := r * p.cfg.maxBatch + k;
            && 0 <= e < |q.on| && q.on[e] == NONE
            && M.PrefetchUpTo(p, r, segments, admission, answers, k + 1) ==
                 M.PrefetchChunk(q, r, e, segments[k].chunk, admission, M.Answer(answers, k)))
  {
    hide M.PrefetchChunk, I.LogOk, I.TicketsOk, I.Counted, S.Advances, I.HintsConserved, I.EntryAwaits, M.AllSegmentsOk;
    S.PrefetchUpToInv(p, r, segments, admission, answers, k);
    var q := M.PrefetchUpTo(p, r, segments, admission, answers, k);
    if k < |segments| {
      M.EntryInBlock(p.cfg, r, k);
      assert I.EntryMidway(q, r, k, r * p.cfg.maxBatch + k);
    }
  }

  lemma TicketChunks(p: Pool, r: nat)
    requires I.Inv(p) && r < |p.tickets|
    ensures p.tickets[r].chunks <= p.cfg.maxBatch
  {
    assert I.TicketOk(p, r);
  }

  // ----- resolves -----

  lemma SlotSetMore(leases: seq<Lease>, i: nat)
    requires i < |leases|
    ensures M.SlotSet(leases[..i + 1]) == M.SlotSet(leases[..i]) + {leases[i].slot}
  {
    assert leases[..i + 1] == leases[..i] + [leases[i]];
    var more := leases[..i + 1];
    forall slot: nat | slot in M.SlotSet(more) ensures slot in M.SlotSet(leases[..i]) + {leases[i].slot} {
      var j :| 0 <= j < |more| && more[j].slot == slot;
      if j < i {
        assert leases[..i][j].slot == slot;
      }
    }
    forall slot: nat | slot in M.SlotSet(leases[..i]) + {leases[i].slot} ensures slot in M.SlotSet(more) {
      if slot == leases[i].slot {
        assert more[i].slot == slot;
      } else {
        var j :| 0 <= j < i && leases[..i][j].slot == slot;
        assert more[j].slot == slot;
      }
    }
  }

  lemma NoSlots()
    ensures M.SlotSet([]) == {}
  {
  }

  lemma EntriesFrame(p: Pool, q: Pool)
    requires M.Shaped(p) && I.EntriesOk(p) && q == p.(stats := q.stats)
    ensures I.EntriesOk(q)
  {
    forall e | 0 <= e < |q.on| ensures I.EntryOk(q, e) { assert I.EntryOk(p, e); }
  }

  // ----- the caller's lease objects -----

  function Handles(leases: seq<Lease>, n: nat): (handles: seq<Handle>)
    requires |leases| <= n
    ensures |handles| == n
  {
    seq(n, i requires 0 <= i => if i < |leases| then Held(leases[i]) else Empty)
  }

  /** The leases that the handles hold, in order. */
  function Leases(handles: seq<Handle>): seq<Lease> {
    if handles == [] then []
    else
      var before := Leases(handles[..|handles| - 1]);
      var last := handles[|handles| - 1];
      if last.Held? then before + [last.lease] else before
  }

  /** The k-th handle, if it holds a lease, holds the one after those of the handles before it. */
  lemma {:induction false} LeasesBelow(handles: seq<Handle>, k: nat)
    requires k <= |handles|
    ensures |Leases(handles[..k])| <= |Leases(handles)|
    ensures Leases(handles[..k]) == Leases(handles)[..|Leases(handles[..k])|]
    ensures k == 0 ==> Leases(handles[..k]) == []
    ensures k < |handles| ==>
        Leases(handles[..k + 1]) == Leases(handles[..k]) + (if handles[k].Held? then [handles[k].lease] else [])
    ensures k < |handles| && handles[k].Held? ==>
      |Leases(handles[..k])| < |Leases(handles)| && Leases(handles)[|Leases(handles[..k])|] == handles[k].lease
    decreases |handles| - k
  {
    if k < |handles| {
      assert handles[..k + 1][..k] == handles[..k];
      LeasesBelow(handles, k + 1);
    } else {
      assert handles[..k] == handles;
    }
  }

  /** The held leases name the fills they were made for, and each pins its slot. */
  ghost predicate Releasable(p: Pool, handles: seq<Handle>) {
    var leases := Leases(handles);
    && M.LeasesInPool(p, leases) && R.CanUnpin(p, leases)
    && forall i :: 0 <= i < |leases| ==> p.slots[leases[i].slot].generation == leases[i].generation
  }

  /** Once the leases before it are released, the next one still names its fill and pins it. */
  lemma ReleaseNext(p: Pool, leases: seq<Lease>, k: nat)
    requires I.Inv(p) && M.Shaped(p) && M.LeasesInPool(p, leases) && R.CanUnpin(p, leases) && k < |leases|
    requires forall i :: 0 <= i < |leases| ==> p.slots[leases[i].slot].generation == leases[i].generation
    ensures var q := M.UnpinUpTo(p, leases, k);
      q.slots[leases[k].slot].generation == leases[k].generation && q.slots[leases[k].slot].pins > 0
  {
    hide I.Inv, I.PendingLinked, M.UnpinUpTo;
    var slot := leases[k].slot;
    R.UnpinUpToInv(p, leases, k);
    R.SumPrefix(leases, k, slot);
    assert R.Dropped(p.slots[slot], M.UnpinUpTo(p, leases, k).slots[slot]);
  }

  /** The pool after the first `k` handles have been reset. */
  function Released(p: Pool, handles: seq<Handle>, k: nat): (q: Pool)
    requires M.Shaped(p) && k <= |handles| && M.LeasesInPool(p, Leases(handles))
    ensures M.SameTickets(p, q)
  {
    LeasesBelow(handles, k);
    M.UnpinUpTo(p, Leases(handles), |Leases(handles[..k])|)
  }

  lemma ReleaseStart(p: Pool, handles: seq<Handle>)
    requires M.Shaped(p) && Releasable(p, handles)
    ensures M.LeasesInPool(p, Leases(handles))
    ensures Released(p, handles, 0) == p && Released(p, handles, |handles|) == M.UnpinAll(p, Leases(handles))
  {
    hide Leases, R.CanUnpin, M.Unpin;
    LeasesBelow(handles, 0);
    assert handles[..|handles|] == handles;
  }

  lemma ReleaseStep(p: Pool, handles: seq<Handle>, k: nat)
    requires I.Inv(p) && M.Shaped(p) && k < |handles| && Releasable(p, handles) && M.LeasesInPool(p, Leases(handles))
    ensures var q := Released(p, handles, k);
      if handles[k].Held? then
        var lease := handles[k].lease;
        && lease.slot < |q.slots| && q.slots[lease.slot].generation == lease.generation && q.slots[lease.slot].pins != 0
        && Released(p, handles, k + 1) == M.Unpin(q, lease.slot)
      else Released(p, handles, k + 1) == q
  {
    hide I.Inv, M.Unpin, R.CanUnpin;
    LeasesBelow(handles, k);
    if handles[k].Held? {
      ReleaseNext(p, Leases(handles), |Leases(handles[..k])|);
    }
  }

  // ----- whole resolves -----

  /** Before its k-th chunk, a resolve that has not failed finds the pool fit for it. */
  lemma ResolveReady(p: Pool, segments: seq<Segment>, answers: seq<bool>, k: nat)
    requires I.Inv(p) && M.Shaped(p) && I.PendingLinked(p) && k < |segments| && M.AllSegmentsOk(p.cfg, segments)
    ensures SegmentOk(p.cfg, segments[k])
    ensures var b := M.ResolveUpTo(p, segments, answers, k);
      && I.OnePerChunk(b.pool.slots) && I.EntriesOk(b.pool)
      && (b.failure != Ok ==> M.ResolveUpTo(p, segments, answers, k + 1) == b)
      && (b.failure == Ok ==>
            |b.leases| == k
            && M.ResolveUpTo(p, segments, answers, k + 1)
                 == M.ResolveChunk(b.pool, b.leases, segments[k], M.Answer(answers, k)))
  {
    hide M.ResolveChunk, I.LogOk, I.TicketsOk, I.Counted, S.Advances, I.HintsConserved, I.OnePerChunk, I.EntriesOk,
         I.SlotsOk, I.PendingLinked,
         S.PinsAdded, S.AllHold;
    R.ResolveUpToInv(p, segments, answers, k);
  }

  /** The call gets past its validation: the batch is valid and `room` entries are enough for its leases. */
  predicate Proceeds(cfg: Config, ranges: seq<ByteRange>, room: nat)
    requires 0 < cfg.slotBytes
  {
    CheckBatch(cfg, ranges).status == Ok && CheckBatch(cfg, ranges).chunks <= room
  }

  lemma UniqueChunks(p: Pool)
    requires I.Inv(p)
    ensures I.OnePerChunk(p.slots)
  {
  }

  // ----- the caller's span after a call -----

  predicate NoneHeld(handles: seq<Handle>) { forall i :: 0 <= i < |handles| ==> handles[i].Empty? }

  /** The span a call leaves: untouched if it does not proceed; otherwise the leases it took, in the first
      entries, and the rest of the span as it was. */
  function SpanAfter(cfg: Config, span: seq<Handle>, ranges: seq<ByteRange>, leases: seq<Lease>): seq<Handle>
    requires 0 < cfg.slotBytes && (Proceeds(cfg, ranges, |span|) ==> |leases| <= CheckBatch(cfg, ranges).chunks)
  {
    if !Proceeds(cfg, ranges, |span|) then span
    else
      var chunks := CheckBatch(cfg, ranges).chunks;
      Handles(leases, chunks) + span[chunks..]
  }

  /** When a failed call leaves no lease held: if none was, or if it proceeded and none was past the entries
      that it would have overwritten. */
  predicate Emptied(cfg: Config, span: seq<Handle>, ranges: seq<ByteRange>)
    requires 0 < cfg.slotBytes
  {
    NoneHeld(span) || (Proceeds(cfg, ranges, |span|) && NoneHeld(span[CheckBatch(cfg, ranges).chunks..]))
  }

  lemma FailedSpan(cfg: Config, span: seq<Handle>, ranges: seq<ByteRange>)
    requires 0 < cfg.slotBytes
    ensures NoneHeld(SpanAfter(cfg, span, ranges, [])) <==> Emptied(cfg, span, ranges)
    ensures Proceeds(cfg, ranges, |span|) ==>
      NoneHeld(SpanAfter(cfg, span, ranges, [])[..CheckBatch(cfg, ranges).chunks])
  {
    hide CheckBatch;
    if Proceeds(cfg, ranges, |span|) {
      var chunks := CheckBatch(cfg, ranges).chunks;
      var after, tail := SpanAfter(cfg, span, ranges, []), span[chunks..];
      assert forall i :: 0 <= i < |tail| ==> after[chunks + i] == tail[i];
      if NoneHeld(after) {
        forall i | 0 <= i < |tail| ensures tail[i].Empty? { assert after[chunks + i].Empty?; }
      }
      if NoneHeld(span) {
        forall i | 0 <= i < |tail| ensures tail[i].Empty? { assert span[chunks + i].Empty?; }
      }
    }
  }

  lemma AllReadyMore(p: Pool, segments: seq<Segment>, k: nat)
    requires k < |segments|
    ensures var slot := Lookup(p.slots, segments[k].chunk);
      M.AllReady(p, segments[..k + 1]) <==> M.AllReady(p, segments[..k]) && slot != NONE && p.slots[slot].state.Ready?
  {
    var more, fewer := segments[..k + 1], segments[..k];
    assert forall i :: 0 <= i < k ==> more[i] == fewer[i];
    assert more[k] == segments[k];
  }

  /** Hits move no fill, so every chunk of the batch is found where it was when the call began. */
  lemma HitReady(p: Pool, segments: seq<Segment>, k: nat)
    requires I.Inv(p) && M.Shaped(p) && I.PendingLinked(p) && k < |segments|
    requires M.AllSegmentsOk(p.cfg, segments) && M.AllReady(p, segments)
    ensures SegmentOk(p.cfg, segments[k])
    ensures var b := M.HitUpTo(p, segments, k);
      var slot := Lookup(p.slots, segments[k].chunk);
      && I.OnePerChunk(b.pool.slots) && b.failure == Ok && slot != NONE
           && Lookup(b.pool.slots, segments[k].chunk) == slot
      && M.HitUpTo(p, segments, k + 1) ==
           M.AccessAndPin(b.pool.(stats := b.pool.stats.(resolveHits := b.pool.stats.resolveHits + 1)), b.leases,
                          slot, segments[k])
  {
    hide I.Inv, I.PendingLinked, M.AccessAndPin, S.Advances, S.PinsAdded, S.AllHold, I.OnePerChunk;
    R.HitUpToInv(p, segments, k);
    var b := M.HitUpTo(p, segments, k);
    UniqueChunks(b.pool);
    OnlyLookup(b.pool.slots, segments[k].chunk, Lookup(p.slots, segments[k].chunk));
  }

  lemma ResolveNone(p: Pool, segments: seq<Segment>, answers: seq<bool>)
    requires M.Shaped(p) && M.AllSegmentsOk(p.cfg, segments)
    ensures M.ResolveUpTo(p, segments, answers, 0) == M.Progress(p, [], Ok)
  {
  }

  lemma HitNone(p: Pool, segments: seq<Segment>)
    requires M.Shaped(p) && M.AllSegmentsOk(p.cfg, segments) && M.AllReady(p, segments)
    ensures M.HitUpTo(p, segments, 0) == M.Progress(p, [], Ok)
  {
  }

  // ----- demotion -----

  /** The slots with the reference bits of the named chunks cleared. */
  ghost function Demoted(slots: seq<Slot>, named: iset<nat>): (r: seq<Slot>)
    ensures |r| == |slots|
  {
    seq(|slots|, i requires 0 <= i < |slots| =>
      if slots[i].Live() && slots[i].chunk in named then slots[i].(referenced := false) else slots[i])
  }

  lemma DemoteNone(slots: seq<Slot>)
    ensures Demoted(slots, iset{}) == slots
  {
  }

  /** Demoting one more chunk touches the slot an index finds for it, if any. */
  lemma DemoteOne(slots: seq<Slot>, named: iset<nat>, chunk: nat)
    requires I.OnePerChunk(slots)
    ensures var now := Demoted(slots, named);
      var slot := Lookup(now, chunk);
      && I.OnePerChunk(now)
      && Demoted(slots, named + iset{chunk}) == if slot == NONE then now
           else now[slot := now[slot].(referenced := false)]
  {
    var now := Demoted(slots, named);
    var slot := Lookup(now, chunk);
    forall i | 0 <= i < |slots| && i != slot ensures !(now[i].Live() && now[i].chunk == chunk) {
      if slot != NONE {
        assert slots[slot].Live() && slots[i].Live() ==> slots[i].chunk != slots[slot].chunk;
      }
    }
  }

  predicate ChunkIn(segments: seq<Segment>, k: nat, chunk: nat)
    requires k <= |segments|
  {
    exists j :: 0 <= j < k && segments[j].chunk == chunk
  }

  /** The chunks of a valid range are those it overlaps. */
  lemma RangeNames(cfg: Config, ranges: seq<ByteRange>, k: nat, segments: seq<Segment>)
    requires cfg.Valid() && k < |ranges| && ValidateRange(ranges[k], cfg.sourceBytes) == Ok
    requires segments == Segments(cfg.slotBytes, [ranges[k]])
    ensures forall chunk: nat :: M.Names(cfg, ranges, k + 1, chunk) <==>
        M.Names(cfg, ranges, k, chunk) || ChunkIn(segments, |segments|, chunk)
  {
    var range := ranges[k];
    var all := RangeSegments(cfg.slotBytes, range);
    assert segments == all by {
      assert SegmentsUpTo(cfg.slotBytes, [range], 1) == SegmentsUpTo(cfg.slotBytes, [range], 0) + all;
    }
    RangeSegmentsOk(cfg, range);
    forall chunk: nat ensures SegmentOk(cfg, Segment(chunk, range)) <==> ChunkIn(segments, |segments|, chunk) {
      ChunkBounds(cfg.slotBytes, range, chunk);
      if SegmentOk(cfg, Segment(chunk, range)) {
        assert all[chunk - FirstChunk(cfg.slotBytes, range)].chunk == chunk;
      }
    }
    forall chunk: nat ensures M.Names(cfg, ranges, k + 1, chunk) <==>
        M.Names(cfg, ranges, k, chunk) || SegmentOk(cfg, Segment(chunk, range)) {
    }
  }

  lemma InvalidNames(cfg: Config, ranges: seq<ByteRange>, k: nat)
    requires k < |ranges| && ValidateRange(ranges[k], cfg.sourceBytes) != Ok
    ensures forall chunk: nat :: M.Names(cfg, ranges, k + 1, chunk) <==> M.Names(cfg, ranges, k, chunk)
  {
    forall chunk: nat ensures M.Names(cfg, ranges, k + 1, chunk) <==> M.Names(cfg, ranges, k, chunk) {
      assert !SegmentOk(cfg, Segment(chunk, ranges[k]));
    }
  }

  lemma NamesNone(cfg: Config, ranges: seq<ByteRange>)
    ensures forall chunk: nat :: !M.Names(cfg, ranges, 0, chunk)
  {
  }

  lemma DemotedAll(p: Pool, ranges: seq<ByteRange>, named: iset<nat>)
    requires M.Shaped(p) && forall chunk: nat :: chunk in named <==> M.Names(p.cfg, ranges, |ranges|, chunk)
    ensures p.(slots := Demoted(p.slots, named)) == M.WontNeed(p, ranges)
  {
    hide M.Names;
    assert Demoted(p.slots, named) == M.WontNeed(p, ranges).slots;
  }

  // ----- observation and creation -----

  datatype Snapshot = Snapshot(total: nat, pinned: nat, ready: nat, filling: nat, counters: Stats)

  /** Fills in flight never exceed the most slots ever in use. */
  lemma FillingBelow(p: Pool)
    requires I.Inv(p)
    ensures p.inFlight <= p.stats.highWater <= |p.slots|
  {
    FillingIsUsed(p.slots);
  }

  lemma {:induction false} FillingIsUsed(slots: seq<Slot>)
    ensures Sum(slots, I.FillingWeight) <= Sum(slots, I.UsedWeight)
  {
    if slots != [] {
      FillingIsUsed(slots[1..]);
    }
  }

  function PinnedWeight(s: Slot): int { if s.pins != 0 then 1 else 0 }
  function ReadyWeight(s: Slot): int { if s.state.Ready? then 1 else 0 }

  lemma CountOneMore(slots: seq<Slot>, s: Slot)
    ensures Sum(slots + [s], PinnedWeight) == Sum(slots, PinnedWeight) + PinnedWeight(s)
    ensures Sum(slots + [s], ReadyWeight) == Sum(slots, ReadyWeight) + ReadyWeight(s)
    ensures Sum(slots + [s], I.FillingWeight) == Sum(slots, I.FillingWeight) + I.FillingWeight(s)
  {
    SumAppend(slots, [s], PinnedWeight);
    SumAppend(slots, [s], ReadyWeight);
    SumAppend(slots, [s], I.FillingWeight);
    SumOne(s, PinnedWeight);
    SumOne(s, ReadyWeight);
    SumOne(s, I.FillingWeight);
  }

  lemma CreatedLinked(cfg: Config)
    requires cfg.Valid()
    ensures I.PendingLinked(M.Create(cfg))
  {
  }

  /** A table of at least twice the slots has at most 2^33 cells, so its hash shift is from 31 to 63. */
  lemma TableFits(n: nat)
    requires 0 < n < 0xFFFF_FFFF
    ensures 0 < CeilLog2(2 * n) <= 33
    ensures 2 * n <= Pow2(CeilLog2(2 * n))
  {
    var k := CeilLog2(2 * n);
    assert k == 0 ==> Pow2(k) == 1;
    HalfWord();
    assert Pow2(33) == 2 * Pow2(32);
    if k > 33 {
      Pow2Product(33, k - 1 - 33);
      assert Pow2(k - 1) >= Pow2(33) * 1;
    }
  }

  /** In the table a pool has, masking with its size less one is the cyclic step and the cyclic distance that
      the probes and the shift are written with. */
  lemma MaskInTable(shift: nat, index: seq<int>, at: map<int, nat>, slots: seq<Slot>, p: nat, q: nat)
    requires Represents(shift, index, at, slots) && p < |index| && q < |index|
    ensures (p + 1) % |index| == Next(p, |index|)
    ensures ((q + WORD - p) % WORD) % |index| == Dist(p, q, |index|)
  {
    MaskIsCyclic(p, q, 64 - shift);
  }

  lemma EmptyTable(shift: nat, index: seq<int>, slots: seq<Slot>)
    requires 31 <= shift < 64 && |index| == Pow2(64 - shift) && 2 * |slots| <= |index|
    requires forall p :: 0 <= p < |index| ==> index[p] == NONE
    requires forall s :: 0 <= s < |slots| ==> !slots[s].Live()
    ensures Represents(shift, index, map[], slots)
  {
  }

  lemma EmptyLists(heads: seq<int>, next: seq<int>, on: seq<int>, queues: seq<seq<nat>>)
    requires |heads| == |queues| && |next| == |on|
    requires (forall s :: 0 <= s < |heads| ==> heads[s] == NONE && queues[s] == [])
    requires forall e :: 0 <= e < |on| ==> on[e] == NONE
    ensures Lists(heads, next, on, queues)
  {
  }
}
