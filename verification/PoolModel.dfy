/** What each critical section of SlotPool (include/sub0mempage/slot_pool.hpp) does to the pool, as
    functions of its state. The backend's answer to a submit is a parameter: `answers[k]` is what it
    answers about the k-th chunk of a batch, and a missing answer is a refusal. */
module PoolModel {
  import opened Transfer
  import opened Products
  import opened Sums
  import opened PoolState
  import opened ClockSweep
  import opened ChunkTiling

  predicate Shaped(p: Pool) {
    && p.cfg.Valid()
    && |p.slots| == p.cfg.numSlots && |p.tickets| == p.cfg.maxTickets
    && |p.outcomes| == |p.on| == p.cfg.maxTickets * p.cfg.maxBatch
    && p.hand < p.cfg.numSlots
  }

  predicate SameShape(p: Pool, q: Pool) { Shaped(q) && q.cfg == p.cfg }

  /** Same shape, and no waiter entry or ticket record has changed. */
  predicate SameTickets(p: Pool, q: Pool) {
    SameShape(p, q) && q.on == p.on && q.outcomes == p.outcomes && q.tickets == p.tickets
        && q.ticketsHeld == p.ticketsHeld
  }

  predicate AllSegmentsOk(cfg: Config, segments: seq<Segment>) {
    forall i :: 0 <= i < |segments| ==> SegmentOk(cfg, segments[i])
  }

  predicate Answer(answers: seq<bool>, k: nat) { k < |answers| && answers[k] }

  function Create(cfg: Config): (p: Pool)
    requires cfg.Valid()
    ensures SameShape(p, p)
  {
    assert cfg.maxTickets * cfg.maxBatch >= 0;
    Pool(cfg,
         seq(cfg.numSlots, _ => Slot(0, 0, 0, Free, Ok, false, false)),
         seq(cfg.maxTickets * cfg.maxBatch, _ => Pending),
         seq(cfg.maxTickets * cfg.maxBatch, _ => NONE),
         seq(cfg.maxTickets, _ => TicketRecord(0, 0, 0, false, false)),
         0, 0, 0, 0, 0, Stats(0, 0, 0, 0, 0, 0, 0, 0, 0, 0, 0, 0, 0, 0), 0, map[])
  }

  // ----- slot lifecycle -----

  function MakeFree(p: Pool, slot: nat): (q: Pool)
    requires Shaped(p) && slot < |p.slots|
    ensures SameTickets(p, q)
  {
    var s := p.slots[slot];
    p.(slots := p.slots[slot := s.(state := Free, referenced := false, hintUnconsumed := false)],
       nonFree := if s.state.Free? then p.nonFree else p.nonFree - 1)
  }

  function Claim(p: Pool, admission: AdmissionClass): (r: (Pool, int))
    requires Shaped(p)
    ensures SameTickets(p, r.0) && (r.1 == NONE || 0 <= r.1 < |p.slots|)
  {
    var o := Sweep(p.slots, p.hand, admission);
    var q := p.(slots := ClearBits(p.slots, p.hand, o.cleared), hand := o.hand);
    if o.slot == NONE || q.slots[o.slot].state.Free? then (q, o.slot)
    else (MakeFree(q.(stats := Evicted(q.stats, q.slots[o.slot].hintUnconsumed)), o.slot), o.slot)
  }

  function Evicted(stats: Stats, unconsumed: bool): Stats {
    stats.(evictions := stats.evictions + 1,
           hintUnconsumed := if unconsumed then stats.hintUnconsumed + 1 else stats.hintUnconsumed)
  }

  /** The slot named and indexed for the chunk, before the request is submitted. */
  function NameSlot(p: Pool, slot: nat, chunk: nat): (q: Pool)
    requires Shaped(p) && slot < |p.slots|
    ensures SameTickets(p, q)
  {
    var s := p.slots[slot];
    p.(slots := p.slots[slot := s.(chunk := chunk, generation := s.generation + 1, state := Filling, failure := Ok)],
       nonFree := p.nonFree + 1,
       stats := p.stats.(highWater := Max(p.stats.highWater, p.nonFree + 1)))
  }

  function StartFill(p: Pool, slot: nat, chunk: nat, accepted: bool): (r: (Pool, Status))
    requires Shaped(p) && slot < |p.slots|
    ensures SameTickets(p, r.0)
  {
    var q := NameSlot(p, slot, chunk);
    var request := RequestFor(p.cfg, slot, q.slots[slot].generation, chunk);
    if accepted then (q.(inFlight := q.inFlight + 1, requests := q.requests[request.token := request]), Ok)
    else (MakeFree(q, slot), QueueExhausted)
  }

  // ----- tickets -----

  /** Records in the ticket of record `r` that its entry `e` awaits the fill of `slot`. */
  function Join(p: Pool, r: nat, e: nat, slot: nat): (q: Pool)
    requires Shaped(p) && r < |p.tickets| && e < |p.on|
    ensures SameShape(p, q)
  {
    p.(outcomes := p.outcomes[e := Pending], on := p.on[e := slot],
       tickets := p.tickets[r := p.tickets[r].(pending := p.tickets[r].pending + 1)])
  }

  function Settled(p: Pool, e: nat, outcome: Status): (q: Pool)
    requires Shaped(p) && e < |p.on|
    ensures SameShape(p, q)
  {
    p.(outcomes := p.outcomes[e := outcome], on := p.on[e := NONE])
  }

  function Resident(stats: Stats): Stats {
    stats.(hintIssued := stats.hintIssued + 1, hintResident := stats.hintResident + 1)
  }

  function Coalesced(stats: Stats): Stats { stats.(coalesced := stats.coalesced + 1) }

  /** A hint that started no fill: declined by policy, or refused for want of a slot or of queue room. */
  function NotAdmitted(stats: Stats, declined: bool): Stats {
    if declined then stats.(hintIssued := stats.hintIssued + 1, hintDeclined := stats.hintDeclined + 1)
    else stats.(hintIssued := stats.hintIssued + 1, admissionFailures := stats.admissionFailures + 1)
  }

  function Admit(p: Pool, slot: nat): (q: Pool)
    requires Shaped(p) && slot < |p.slots|
    ensures SameTickets(p, q)
  {
    p.(slots := p.slots[slot := p.slots[slot].(hintUnconsumed := true)],
       stats := p.stats.(hintIssued := p.stats.hintIssued + 1, hintAdmitted := p.stats.hintAdmitted + 1))
  }

  /** One chunk of a prefetch by record `r`, whose waiter entry is `e`. */
  function PrefetchChunk(p: Pool, r: nat, e: nat, chunk: nat, admission: AdmissionClass, accepted: bool): (q: Pool)
    requires Shaped(p) && r < |p.tickets| && e < |p.on|
    ensures SameShape(p, q)
  {
    var slot := Lookup(p.slots, chunk);
    if slot != NONE && p.slots[slot].state.Ready? then Settled(p.(stats := Resident(p.stats)), e, Ok)
    else if slot != NONE then Join(p.(stats := Coalesced(Resident(p.stats))), r, e, slot)
    else
      var (claimed, victim) := Claim(p, admission);
      if victim == NONE then
        Settled(claimed.(stats := NotAdmitted(claimed.stats, admission.Speculative?)), e,
                if admission.Speculative? then Declined else PoolExhausted)
      else
        var (filling, started) := StartFill(claimed, victim, chunk, accepted);
        if started != Ok then Settled(filling.(stats := NotAdmitted(filling.stats, false)), e, started)
        else Join(Admit(filling, victim), r, e, victim)
  }

  function PrefetchUpTo(p: Pool, r: nat, segments: seq<Segment>, admission: AdmissionClass, answers: seq<bool>,
                        k: nat): (q: Pool)
    requires Shaped(p) && r < |p.tickets| && k <= |segments| <= p.cfg.maxBatch
    ensures SameShape(p, q)
  {
    if k == 0 then p
    else
      var q := PrefetchUpTo(p, r, segments, admission, answers, k - 1);
      EntryInBlock(p.cfg, r, k - 1);
      PrefetchChunk(q, r, r * p.cfg.maxBatch + k - 1, segments[k - 1].chunk, admission, Answer(answers, k - 1))
  }

  /** Entry `i` of record `r`'s block is a waiter entry, and division recovers the record from it. */
  lemma EntryInBlock(cfg: Config, r: nat, i: nat)
    requires r < cfg.maxTickets && i < cfg.maxBatch
    ensures 0 <= r * cfg.maxBatch + i < r * cfg.maxBatch + cfg.maxBatch <= cfg.maxTickets * cfg.maxBatch
    ensures (r * cfg.maxBatch + i) / cfg.maxBatch == r
  {
    BlockInside(cfg, r);
    DivBounds(r * cfg.maxBatch + i, cfg.maxBatch, r);
  }

  lemma BlockInside(cfg: Config, r: nat)
    requires r < cfg.maxTickets
    ensures 0 <= r * cfg.maxBatch && r * cfg.maxBatch + cfg.maxBatch <= cfg.maxTickets * cfg.maxBatch
  {
    Apart(r, cfg.maxTickets, cfg.maxBatch);
  }

  /** What a batch that passes validation gives the operations to work on. */
  lemma BatchSegments(cfg: Config, ranges: seq<ByteRange>)
    requires cfg.Valid() && CheckBatch(cfg, ranges).status == Ok
    ensures Inside(cfg, ranges, |ranges|)
    ensures 0 < |Segments(cfg.slotBytes, ranges)| == CheckBatch(cfg, ranges).chunks <= cfg.maxBatch
    ensures AllSegmentsOk(cfg, Segments(cfg.slotBytes, ranges))
  {
    CheckBatchMeaning(cfg, ranges);
    SegmentsOk(cfg, ranges, |ranges|);
  }

  /** The chunks a valid batch names, in request order. */
  function Batch(cfg: Config, ranges: seq<ByteRange>): (segments: seq<Segment>)
    requires cfg.Valid() && CheckBatch(cfg, ranges).status == Ok
    ensures 0 < |segments| == CheckBatch(cfg, ranges).chunks <= cfg.maxBatch
    ensures AllSegmentsOk(cfg, segments)
  {
    BatchSegments(cfg, ranges);
    Segments(cfg.slotBytes, ranges)
  }

  function FirstFreeRecord(tickets: seq<TicketRecord>, k: nat): (r: nat)
    requires k <= |tickets|
    ensures k <= r <= |tickets|
    ensures r < |tickets| ==> !tickets[r].inUse
    ensures forall i :: k <= i < r ==> tickets[i].inUse
    decreases |tickets| - k
  {
    if k == |tickets| || !tickets[k].inUse then k else FirstFreeRecord(tickets, k + 1)
  }

  function OpenRecord(p: Pool, r: nat, chunks: nat): (q: Pool)
    requires Shaped(p) && r < |p.tickets|
    ensures SameShape(p, q)
  {
    p.(tickets := p.tickets[r := TicketRecord(p.tickets[r].generation + 1, chunks, 0, true, true)],
       ticketsHeld := p.ticketsHeld + 1)
  }

  /** A ticket is the record and its generation; a refusal leaves the pool as it was. */
  datatype PrefetchResult = Refused(status: Status) | Issued(record: nat, generation: nat)

  function Prefetch(p: Pool, ranges: seq<ByteRange>, admission: AdmissionClass,
                    answers: seq<bool>): (r: (Pool, PrefetchResult))
    requires Shaped(p)
    ensures SameShape(p, r.0)
  {
    var check := CheckBatch(p.cfg, ranges);
    if check.status != Ok then (p, Refused(check.status))
    else
      var r := FirstFreeRecord(p.tickets, 0);
      if r == |p.tickets| then (p, Refused(TicketExhausted))
      else
        var q := PrefetchUpTo(OpenRecord(p, r, check.chunks), r, Batch(p.cfg, ranges), admission, answers,
                              check.chunks);
        (q, Issued(r, p.tickets[r].generation + 1))
  }

  /** Linked entries of record `r`: those still awaiting a fill. */
  function LinkedWeight(slot: int): int { if slot == NONE then 0 else 1 }

  function Block(on: seq<int>, cfg: Config, r: nat): seq<int>
    requires r < cfg.maxTickets && |on| == cfg.maxTickets * cfg.maxBatch
  {
    BlockInside(cfg, r);
    on[r * cfg.maxBatch..r * cfg.maxBatch + cfg.maxBatch]
  }

  function Linked(on: seq<int>, cfg: Config, r: nat): int
    requires r < cfg.maxTickets && |on| == cfg.maxTickets * cfg.maxBatch
  {
    Sum(Block(on, cfg, r), LinkedWeight)
  }

  function WithPending(t: TicketRecord, pending: int): TicketRecord {
    t.(pending := pending, inUse := t.held || 0 < pending)
  }

  /** The result of the fill of `slot` reaches every entry that awaits it, and each record's count. */
  function Publish(p: Pool, slot: nat, status: Status): (q: Pool)
    requires Shaped(p)
    ensures SameShape(p, q)
  {
    var on := seq(|p.on|, e requires 0 <= e < |p.on| => if p.on[e] == slot then NONE else p.on[e]);
    p.(outcomes := seq(|p.on|, e requires 0 <= e < |p.on| => if p.on[e] == slot then status else p.outcomes[e]),
       on := on,
       tickets := seq(|p.tickets|, r requires 0 <= r < |p.tickets| => WithPending(p.tickets[r], Linked(on, p.cfg, r))))
  }

  /** The fill a delivery names is in flight: right slot, right generation, still filling. */
  predicate Current(p: Pool, token: Token) {
    && token.index < |p.slots| && p.slots[token.index].generation == token.generation
    && p.slots[token.index].state.Filling?
  }

  /** The slot part of a terminal delivery. */
  function FinishFill(p: Pool, slot: nat, status: Status, bytes: nat): (q: Pool)
    requires Shaped(p) && slot < |p.slots|
    ensures SameTickets(p, q)
  {
    var s := p.slots[slot];
    if status == Ok then
      p.(inFlight := p.inFlight - 1, slots := p.slots[slot := s.(state := Ready)],
         stats := p.stats.(bytesRead := p.stats.bytesRead + bytes))
    else
      var wasted := if s.hintUnconsumed then p.stats.hintUnconsumed + 1 else p.stats.hintUnconsumed;
      var failed := p.(inFlight := p.inFlight - 1,
                       slots := p.slots[slot := s.(state := Failed, failure := status, hintUnconsumed := false)],
                       stats := p.stats.(fillsFailed := p.stats.fillsFailed + 1, hintUnconsumed := wasted));
      if s.pins == 0 then MakeFree(failed, slot) else failed
  }

  function OnComplete(p: Pool, token: Token, result: FillResult): (q: Pool)
    requires Shaped(p)
    ensures SameShape(p, q)
  {
    if !Current(p, token) then p.(stats := p.stats.(stale := p.stats.stale + 1))
    else
      var status := ClassifyFill(result, ChunkLength(p.cfg, p.slots[token.index].chunk));
      Publish(FinishFill(p, token.index, status, result.bytes), token.index, status)
  }

  function DiscardTicket(p: Pool, r: nat): (q: Pool)
    requires Shaped(p) && r < |p.tickets|
    ensures SameShape(p, q)
  {
    var t := p.tickets[r].(held := false);
    p.(tickets := p.tickets[r := if t.pending == 0 then t.(inUse := false) else t], ticketsHeld := p.ticketsHeld - 1)
  }

  // ----- pins -----

  function Pin(p: Pool, slot: nat): (q: Pool)
    requires Shaped(p) && slot < |p.slots|
    ensures SameTickets(p, q)
  {
    p.(slots := p.slots[slot := p.slots[slot].(pins := p.slots[slot].pins + 1)], pinsTotal := p.pinsTotal + 1)
  }

  function Unpin(p: Pool, slot: nat): (q: Pool)
    requires Shaped(p) && slot < |p.slots|
    ensures SameTickets(p, q)
  {
    var s := p.slots[slot].(pins := p.slots[slot].pins - 1);
    var q := p.(slots := p.slots[slot := s], pinsTotal := p.pinsTotal - 1);
    if s.pins == 0 && s.state.Failed? then MakeFree(q, slot) else q
  }

  predicate LeasesInPool(p: Pool, leases: seq<Lease>) {
    forall i :: 0 <= i < |leases| ==> leases[i].slot < |p.slots|
  }

  /** Unpins the first `k` leases, in order. */
  function UnpinUpTo(p: Pool, leases: seq<Lease>, k: nat): (q: Pool)
    requires Shaped(p) && k <= |leases| && LeasesInPool(p, leases)
    ensures SameTickets(p, q)
  {
    if k == 0 then p else Unpin(UnpinUpTo(p, leases, k - 1), leases[k - 1].slot)
  }

  function UnpinAll(p: Pool, leases: seq<Lease>): (q: Pool)
    requires Shaped(p) && LeasesInPool(p, leases)
    ensures SameTickets(p, q)
  {
    UnpinUpTo(p, leases, |leases|)
  }

  /** A resolve is an access: it sets the CLOCK bit and consumes a prefetch. */
  function Access(p: Pool, slot: nat): (q: Pool)
    requires Shaped(p) && slot < |p.slots|
    ensures SameTickets(p, q)
  {
    p.(slots := p.slots[slot := p.slots[slot].(referenced := true, hintUnconsumed := false)],
       consumed := if p.slots[slot].hintUnconsumed then p.consumed + 1 else p.consumed)
  }

  function SlotSet(leases: seq<Lease>): set<nat> { set i | 0 <= i < |leases| :: leases[i].slot }

  /** What a resolve has done so far: the leases are its pins, in request order. */
  datatype Progress = Progress(pool: Pool, leases: seq<Lease>, failure: Status)

  function AccessAndPin(p: Pool, leases: seq<Lease>, slot: nat, segment: Segment): (b: Progress)
    requires Shaped(p) && slot < |p.slots| && LeasesInPool(p, leases) && SegmentOk(p.cfg, segment)
    ensures SameTickets(p, b.pool) && LeasesInPool(b.pool, b.leases)
  {
    Progress(Pin(Access(p, slot), slot),
             leases + [LeaseFor(p.cfg, slot, p.slots[slot].generation, segment)], Ok)
  }

  function ResolveChunk(p: Pool, leases: seq<Lease>, segment: Segment, accepted: bool): (b: Progress)
    requires Shaped(p) && LeasesInPool(p, leases) && SegmentOk(p.cfg, segment)
    ensures SameTickets(p, b.pool) && LeasesInPool(b.pool, b.leases)
  {
    var slot := Lookup(p.slots, segment.chunk);
    if slot != NONE then
      var counted := if p.slots[slot].state.Ready?
        then p.(stats := p.stats.(resolveHits := p.stats.resolveHits + 1))
        else p.(stats := Coalesced(p.stats));
      AccessAndPin(counted, leases, slot, segment)
    else
      var (claimed, victim) :=
          Claim(p.(stats := p.stats.(resolveMisses := p.stats.resolveMisses + 1)), AdmissionClass.Declared);
      if victim == NONE then
        Progress(claimed, leases, if |SlotSet(leases)| >= p.cfg.numSlots then BatchTooLarge else PoolExhausted)
      else
        var (filling, started) := StartFill(claimed, victim, segment.chunk, accepted);
        if started != Ok then Progress(filling, leases, started)
        else AccessAndPin(filling, leases, victim, segment)
  }

  function ResolveUpTo(p: Pool, segments: seq<Segment>, answers: seq<bool>, k: nat): (b: Progress)
    requires Shaped(p) && k <= |segments| && AllSegmentsOk(p.cfg, segments)
    ensures SameTickets(p, b.pool) && LeasesInPool(b.pool, b.leases)
  {
    if k == 0 then Progress(p, [], Ok)
    else
      var before := ResolveUpTo(p, segments, answers, k - 1);
      if before.failure != Ok then before
      else ResolveChunk(before.pool, before.leases, segments[k - 1], Answer(answers, k - 1))
  }

  /** A resolve up to its wait, given room for `room` leases: it fails with every pin undone, or it
      holds one pin per segment and goes on to wait. */
  function ResolveBegin(p: Pool, ranges: seq<ByteRange>, room: nat, answers: seq<bool>): (b: Progress)
    requires Shaped(p)
    ensures SameTickets(p, b.pool) && LeasesInPool(b.pool, b.leases)
    ensures b.failure != Ok ==> b.leases == []
  {
    var check := CheckBatch(p.cfg, ranges);
    if check.status != Ok then Progress(p, [], check.status)
    else if room < check.chunks then Progress(p, [], BatchTooLarge)
    else
      var b := ResolveUpTo(p, Batch(p.cfg, ranges), answers, check.chunks);
      if b.failure == Ok then b else Progress(UnpinAll(b.pool, b.leases), [], b.failure)
  }

  predicate StillFilling(p: Pool, leases: seq<Lease>)
    requires LeasesInPool(p, leases)
  {
    exists i :: 0 <= i < |leases| && p.slots[leases[i].slot].state.Filling?
  }

  /** The first failed slot decides what a finished resolve reports. */
  function FirstFailure(p: Pool, leases: seq<Lease>, k: nat): (status: Status)
    requires LeasesInPool(p, leases) && k <= |leases|
    decreases |leases| - k
  {
    if k == |leases| then Ok
    else if p.slots[leases[k].slot].state.Failed? then p.slots[leases[k].slot].failure
    else FirstFailure(p, leases, k + 1)
  }

  /** A resolve after its wait. */
  function ResolveFinish(p: Pool, leases: seq<Lease>): (b: Progress)
    requires Shaped(p) && LeasesInPool(p, leases)
    ensures SameTickets(p, b.pool) && LeasesInPool(b.pool, b.leases)
    ensures b.failure != Ok ==> b.leases == []
  {
    var failure := FirstFailure(p, leases, 0);
    if failure == Ok then Progress(p, leases, Ok) else Progress(UnpinAll(p, leases), [], failure)
  }

  predicate AllReady(p: Pool, segments: seq<Segment>) {
    forall i :: 0 <= i < |segments| ==>
      var slot := Lookup(p.slots, segments[i].chunk);
      slot != NONE && p.slots[slot].state.Ready?
  }

  /** Pins the first `k` segments, all of whose chunks are ready. */
  function HitUpTo(p: Pool, segments: seq<Segment>, k: nat): (b: Progress)
    requires Shaped(p) && k <= |segments| && AllSegmentsOk(p.cfg, segments) && AllReady(p, segments)
    ensures SameTickets(p, b.pool) && LeasesInPool(b.pool, b.leases)
  {
    if k == 0 then Progress(p, [], Ok)
    else
      var before := HitUpTo(p, segments, k - 1);
      AccessAndPin(before.pool.(stats := before.pool.stats.(resolveHits := before.pool.stats.resolveHits + 1)),
                   before.leases, Lookup(p.slots, segments[k - 1].chunk), segments[k - 1])
  }

  function TryResolve(p: Pool, ranges: seq<ByteRange>, room: nat): (b: Progress)
    requires Shaped(p)
    ensures SameTickets(p, b.pool) && LeasesInPool(b.pool, b.leases)
    ensures b.failure != Ok ==> b.leases == []
  {
    var check := CheckBatch(p.cfg, ranges);
    if check.status != Ok then Progress(p, [], check.status)
    else if room < check.chunks then Progress(p, [], BatchTooLarge)
    else
      var segments := Batch(p.cfg, ranges);
      if AllReady(p, segments) then HitUpTo(p, segments, |segments|) else Progress(p, [], NotResident)
  }

  /** Some range of the batch lies in the source and names the chunk. */
  predicate Names(cfg: Config, ranges: seq<ByteRange>, k: nat, chunk: nat)
    requires k <= |ranges|
  {
    exists j :: 0 <= j < k && SegmentOk(cfg, Segment(chunk, ranges[j]))
  }

  function WontNeed(p: Pool, ranges: seq<ByteRange>): (q: Pool)
    requires Shaped(p)
    ensures SameTickets(p, q)
  {
    p.(slots := seq(|p.slots|, i requires 0 <= i < |p.slots| =>
      if p.slots[i].Live() && Names(p.cfg, ranges, |ranges|, p.slots[i].chunk)
      then p.slots[i].(referenced := false) else p.slots[i]))
  }
}
