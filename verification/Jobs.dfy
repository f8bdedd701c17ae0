/** What a batch of SlotPool (slot_pool.hpp) asks of the backend, chunk by chunk: a prefetch or a resolve holds
    the pool's lock over all its submits, while the backend goes on between them. */
module Jobs {
  import opened Transfer
  import opened PoolState
  import opened ClockSweep
  import opened ChunkTiling
  import opened PoolModel
  import opened PoolInvariant
  import opened PoolSteps
  import opened PoolResolve

  /** The chunks of a prefetch whose record is open, or of a resolve, from the pool they start with. */
  datatype Job =
    | Hint(start: Pool, record: nat, segments: seq<Segment>, admission: AdmissionClass)
    | Take(start: Pool, segments: seq<Segment>)

  predicate JobShaped(j: Job) {
    && Shaped(j.start) && AllSegmentsOk(j.start.cfg, j.segments)
    && (j.Hint? ==> j.record < |j.start.tickets| && |j.segments| <= j.start.cfg.maxBatch)
  }

  /** The pool after as many chunks as there are answers. */
  function PoolAt(j: Job, answers: seq<bool>): (p: Pool)
    requires JobShaped(j) && |answers| <= |j.segments|
    ensures SameShape(j.start, p)
  {
    match j
    case Hint(start, record, segments, admission) =>
        PrefetchUpTo(start, record, segments, admission, answers, |answers|)
    case Take(start, segments) => ResolveUpTo(start, segments, answers, |answers|).pool
  }

  function Admission(j: Job): AdmissionClass { if j.Hint? then j.admission else AdmissionClass.Declared }

  /** What the next chunk submits: nothing if its chunk is live, if there is no victim, or if the resolve has
      failed already. */
  function Ask(j: Job, answers: seq<bool>): (r: Option<Request>)
    requires JobShaped(j) && |answers| < |j.segments|
  {
    var p := PoolAt(j, answers);
    var chunk := j.segments[|answers|].chunk;
    var (claimed, victim) := Claim(p, Admission(j));
    if j.Take? && ResolveUpTo(j.start, j.segments, answers, |answers|).failure != Ok then None
    else if Lookup(p.slots, chunk) != NONE || victim == NONE then None
    else Some(RequestFor(p.cfg, victim, claimed.slots[victim].generation + 1, chunk))
  }

  lemma AskFits(j: Job, answers: seq<bool>)
    requires JobShaped(j) && |answers| < |j.segments| && Ask(j, answers).Some?
    ensures Ask(j, answers).value.source <= U64_MAX && Ask(j, answers).value.length <= U64_MAX
  {
    hide PrefetchUpTo, ResolveUpTo, Claim, Lookup;
    SegmentInSource(j.start.cfg, j.segments, |answers|);
  }

  // ----- answers count only for the chunks they are given for -----

  lemma {:induction false} HintPrefix(p: Pool, r: nat, segments: seq<Segment>, admission: AdmissionClass,
                                      answers: seq<bool>, more: seq<bool>, k: nat)
    requires Shaped(p) && r < |p.tickets| && k <= |segments| <= p.cfg.maxBatch && k <= |answers|
    ensures PrefetchUpTo(p, r, segments, admission, answers + more, k)
        == PrefetchUpTo(p, r, segments, admission, answers, k)
  {
    hide PrefetchChunk;
    if k > 0 {
      HintPrefix(p, r, segments, admission, answers, more, k - 1);
      assert Answer(answers + more, k - 1) == Answer(answers, k - 1);
    }
  }

  lemma {:induction false} TakePrefix(p: Pool, segments: seq<Segment>, answers: seq<bool>, more: seq<bool>, k: nat)
    requires Shaped(p) && AllSegmentsOk(p.cfg, segments) && k <= |segments| && k <= |answers|
    ensures ResolveUpTo(p, segments, answers + more, k) == ResolveUpTo(p, segments, answers, k)
  {
    hide ResolveChunk;
    if k > 0 {
      TakePrefix(p, segments, answers, more, k - 1);
      assert Answer(answers + more, k - 1) == Answer(answers, k - 1);
    }
  }

  // ----- every submit is a new request -----

  predicate JobOk(j: Job) {
    && JobShaped(j) && Inv(j.start)
    && (j.Hint? ==> Midway(j.start, j.record, 0) && |j.segments| == j.start.tickets[j.record].chunks)
    && (j.Take? ==> PendingLinked(j.start))
  }

  lemma JobAdvances(j: Job, answers: seq<bool>)
    requires JobShaped(j) && JobOk(j) && |answers| <= |j.segments|
    ensures Inv(PoolAt(j, answers)) && Advances(j.start, PoolAt(j, answers))
  {
    hide Inv, Advances, Midway, PrefetchUpTo, ResolveUpTo, PinsAdded, AllHold, FailureReason, SamePins,
         AllSegmentsOk, PendingLinked;
    match j
    case Hint(start, record, segments, admission) =>
        PrefetchUpToInv(start, record, segments, admission, answers, |answers|);
    case Take(start, segments) => ResolveUpToInv(start, segments, answers, |answers|);
  }

  lemma ClaimIgnoresStats(p: Pool, q: Pool, admission: AdmissionClass)
    requires Shaped(p) && q == p.(stats := q.stats)
    ensures Claim(q, admission).1 == Claim(p, admission).1
    ensures Claim(q, admission).0.slots == Claim(p, admission).0.slots
    ensures Claim(q, admission).0.requests == Claim(p, admission).0.requests == p.requests
    ensures Claim(q, admission).0.cfg == p.cfg
  {
    hide Sweep, ClearBits;
  }

  lemma HintStep(p: Pool, r: nat, e: nat, chunk: nat, admission: AdmissionClass, ok: bool)
    requires Shaped(p) && r < |p.tickets| && e < |p.on|
    ensures var q := PrefetchChunk(p, r, e, chunk, admission, ok);
      var (claimed, victim) := Claim(p, admission);
      q.requests ==
        if Lookup(p.slots, chunk) != NONE || victim == NONE || !ok then p.requests
        else
          var request := RequestFor(p.cfg, victim, claimed.slots[victim].generation + 1, chunk);
          p.requests[request.token := request]
  {
    hide Lookup, Sweep, ClearBits;
  }

  lemma TakeStep(p: Pool, leases: seq<Lease>, segment: Segment, ok: bool)
    requires Shaped(p) && LeasesInPool(p, leases) && SegmentOk(p.cfg, segment)
    ensures var q := ResolveChunk(p, leases, segment, ok).pool;
      var (claimed, victim) := Claim(p, AdmissionClass.Declared);
      q.requests ==
        if Lookup(p.slots, segment.chunk) != NONE || victim == NONE || !ok then p.requests
        else
          var request := RequestFor(p.cfg, victim, claimed.slots[victim].generation + 1, segment.chunk);
          p.requests[request.token := request]
  {
    hide Lookup, Claim, LeaseFor, SlotSet;
    ClaimIgnoresStats(p, p.(stats := p.stats.(resolveMisses := p.stats.resolveMisses + 1)), AdmissionClass.Declared);
  }

  /** The next chunk's answer decides whether what it asks for is on record; nothing else is. */
  lemma AskStep(j: Job, answers: seq<bool>, ok: bool)
    requires JobShaped(j) && |answers| < |j.segments|
    ensures PoolAt(j, answers + [ok]).requests ==
      var asked := Ask(j, answers);
      var before := PoolAt(j, answers).requests;
      if asked.Some? && ok then before[asked.value.token := asked.value] else before
  {
    hide PrefetchChunk, ResolveChunk, Claim, Lookup;
    var k := |answers|;
    assert Answer(answers + [ok], k) == ok;
    match j
    case Hint(start, record, segments, admission) =>
      HintPrefix(start, record, segments, admission, answers, [ok], k);
      EntryInBlock(start.cfg, record, k);
      HintStep(PoolAt(j, answers), record, record * start.cfg.maxBatch + k, segments[k].chunk, admission, ok);
    case Take(start, segments) =>
      TakePrefix(start, segments, answers, [ok], k);
      var before := ResolveUpTo(start, segments, answers, k);
      if before.failure == Ok {
        SegmentInSource(start.cfg, segments, k);
        TakeStep(before.pool, before.leases, segments[k], ok);
      }
  }

  /** What a chunk asks for has never been asked for before. */
  lemma AskIsNew(j: Job, answers: seq<bool>)
    requires JobShaped(j) && JobOk(j) && |answers| < |j.segments| && Ask(j, answers).Some?
    ensures Ask(j, answers).value.token !in PoolAt(j, answers).requests
  {
    hide PrefetchUpTo, ResolveUpTo, Lookup, Advances;
    JobAdvances(j, answers);
    NewToken(PoolAt(j, answers), Admission(j));
  }

  lemma NewToken(p: Pool, admission: AdmissionClass)
    requires Inv(p)
    ensures var (claimed, victim) := Claim(p, admission);
      victim != NONE ==> Token(victim, claimed.slots[victim].generation + 1) !in p.requests
  {
    hide SlotSide, EntriesOk, TicketsOk, PendingLinked;
    ClaimInv(p, admission);
    var (claimed, victim) := Claim(p, admission);
    if victim != NONE {
      assert claimed.slots[victim].generation == p.slots[victim].generation;
    }
  }
}
