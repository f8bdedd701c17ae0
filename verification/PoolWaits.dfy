/** Tickets over runs, and the one condition variable of the pool (slot_pool.hpp, progress_). */
module PoolWaits {
  import opened Transfer
  import opened Sums
  import opened PoolState
  import opened ChunkTiling
  import opened PoolModel
  import opened PoolInvariant
  import opened PoolRuns
  import opened PoolProgress

  // ----- a prefetch touches only the record it issues -----

  /** Only record `r` and the waiter entries of its block differ. */
  predicate OthersSame(p: Pool, q: Pool, r: nat)
    requires Shaped(p) && Shaped(q)
  {
    && q.cfg == p.cfg
    && (forall t :: 0 <= t < |p.tickets| && t != r ==> q.tickets[t] == p.tickets[t])
    && (forall e :: 0 <= e < |p.on| && Owner(p.cfg, e) != r ==> q.on[e] == p.on[e] && q.outcomes[e] == p.outcomes[e])
  }

  lemma PrefetchChunkOthers(p: Pool, r: nat, i: nat, chunk: nat, admission: AdmissionClass, accepted: bool)
    requires Shaped(p) && r < |p.tickets| && i < p.cfg.maxBatch
    ensures var e := r * p.cfg.maxBatch + i;
      e < |p.on| && OthersSame(p, PrefetchChunk(p, r, e, chunk, admission, accepted), r)
  {
    hide Claim, StartFill;
    EntryInBlock(p.cfg, r, i);
    OwnerBlock(p.cfg, r * p.cfg.maxBatch + i, r);
  }

  lemma {:induction false} PrefetchUpToOthers(p: Pool, r: nat, segments: seq<Segment>, admission: AdmissionClass,
                                              answers: seq<bool>, k: nat)
    requires Shaped(p) && r < |p.tickets| && k <= |segments| <= p.cfg.maxBatch
    ensures OthersSame(p, PrefetchUpTo(p, r, segments, admission, answers, k), r)
  {
    hide PrefetchChunk;
    if k > 0 {
      PrefetchUpToOthers(p, r, segments, admission, answers, k - 1);
      var q := PrefetchUpTo(p, r, segments, admission, answers, k - 1);
      PrefetchChunkOthers(q, r, k - 1, segments[k - 1].chunk, admission, Answer(answers, k - 1));
    }
  }

  lemma PrefetchOthers(p: Pool, ranges: seq<ByteRange>, admission: AdmissionClass, answers: seq<bool>)
    requires Shaped(p)
    ensures var (q, res) := PoolModel.Prefetch(p, ranges, admission, answers);
      if res.Refused? then q == p
      else res.record < |p.tickets| && !p.tickets[res.record].inUse && OthersSame(p, q, res.record)
  {
    hide PrefetchUpTo, CheckUpTo, Batch;
    var check := CheckBatch(p.cfg, ranges);
    var r := FirstFreeRecord(p.tickets, 0);
    if check.status == Ok && r < |p.tickets| {
      PrefetchUpToOthers(OpenRecord(p, r, check.chunks), r, Batch(p.cfg, ranges), admission, answers, check.chunks);
    }
  }

  /** Entries of records in use change only in a genuine delivery. */
  predicate EntriesKept(p: Pool, q: Pool)
    requires Shaped(p) && Shaped(q)
  {
    && q.cfg == p.cfg
    && (forall t :: 0 <= t < |p.tickets| && p.tickets[t].inUse ==>
          q.tickets[t].pending == p.tickets[t].pending && q.tickets[t].chunks == p.tickets[t].chunks)
    && (forall e :: 0 <= e < |p.on| && p.tickets[Owner(p.cfg, e)].inUse ==>
         q.on[e] == p.on[e] && q.outcomes[e] == p.outcomes[e])
  }

  lemma EventEntries(w: World, e: Event)
    requires WorldOk(w) && Shaped(w.pool) && !Genuine(w, e)
    ensures EntriesKept(w.pool, Apply(w, e).pool)
  {
    hide WorldOk, PoolModel.Prefetch, PoolModel.ResolveBegin, PoolModel.ResolveFinish,
         PoolModel.TryResolve, PoolModel.WontNeed, OnComplete, Unpin, StillFilling, Honest, Outstanding;
    if Enabled(w, e) {
      match e
      case Prefetch(ranges, admission, answers) => PrefetchOthers(w.pool, ranges, admission, answers);
      case DiscardTicket(r) =>
      case ResolveBegin(ranges, room, answers) =>
      case ResolveFinish(c) =>
      case TryResolve(ranges, room) =>
      case Release(i) =>
      case WontNeed(ranges) =>
      case Write(t, bytes) =>
      case Deliver(t, result) => StaleEntries(w, t, result);
    }
  }

  lemma StaleEntries(w: World, t: Token, result: FillResult)
    requires WorldOk(w) && Shaped(w.pool) && !Outstanding(w, t)
    ensures SameTickets(w.pool, OnComplete(w.pool, t, result))
  {
    assert !Current(w.pool, t);
  }

  /** A pending outcome is written exactly once. In a record in use, an entry's outcome changes only when
      the fill it awaits is delivered, and then it becomes that fill's result, which is not pending; an
      entry that awaits nothing never changes. */
  lemma OutcomeWrittenOnce(w: World, e: Event, entry: nat)
    requires WorldOk(w) && Shaped(w.pool) && entry < |w.pool.on| && w.pool.tickets[Owner(w.pool.cfg, entry)].inUse
    ensures var q := Apply(w, e).pool;
      if Genuine(w, e) && w.pool.on[entry] == e.token.index then
        && w.pool.outcomes[entry] == Pending && q.on[entry] == NONE && q.outcomes[entry] != Pending
        && q.outcomes[entry] == ClassifyFill(e.result, w.pool.requests[e.token].length)
      else q.on[entry] == w.pool.on[entry] && q.outcomes[entry] == w.pool.outcomes[entry]
  {
    hide Inv, PendingLinked, LeasesOk, MemoryOk, PinsMatch, FinishFill, Owner;
    if Genuine(w, e) {
      OwedRequest(w, e.token);
      LinkedIsPending(w.pool, entry);
    } else {
      EventEntries(w, e);
    }
  }

  // ----- from the join to the outcome, over runs -----

  /** The k-th event of the run is the delivery of the fill `t`. */
  predicate EndsAt(w: World, es: seq<Event>, k: nat, t: Token)
    requires Shaped(w.pool) && k < |es|
  {
    Genuine(Run(w, es[..k]), es[k]) && es[k].token == t
  }

  /** The entry awaits the fill `t`, which is in flight. */
  predicate Awaits(p: Pool, entry: nat, t: Token) { entry < |p.on| && p.on[entry] == t.index && Current(p, t) }

  lemma AwaitingInUse(p: Pool, entry: nat)
    requires Inv(p) && Shaped(p) && entry < |p.on| && p.on[entry] != NONE
    ensures p.tickets[Owner(p.cfg, entry)].inUse
  {
    hide SlotSide, LogOk, EntriesOk;
    var r := Owner(p.cfg, entry);
    assert TicketOk(p, r);
    BlockInside(p.cfg, r);
    var block := Block(p.on, p.cfg, r);
    SumBounds(block, LinkedWeight);
    assert LinkedWeight(block[entry - r * p.cfg.maxBatch]) <= Sum(block, LinkedWeight);
  }

  /** An event that does not deliver the fill leaves the entry awaiting that very fill. */
  lemma AwaitsStep(w: World, e: Event, entry: nat, t: Token)
    requires WorldOk(w) && Shaped(w.pool) && Awaits(w.pool, entry, t) && !(Genuine(w, e) && e.token == t)
    ensures Awaits(Apply(w, e).pool, entry, t) && w.pool.outcomes[entry] == Pending
  {
    hide WorldOk, Apply, Genuine, Inv;
    WorldInv(w);
    AwaitingInUse(w.pool, entry);
    LinkedIsPending(w.pool, entry);
    OutcomeWrittenOnce(w, e, entry);
    if Genuine(w, e) {
      GenuineToken(w, e);
      GenuineEnds(w, e);
    } else {
      EventSteady(w, e);
      assert FillSteady(w.pool.slots[t.index], Apply(w, e).pool.slots[t.index]);
    }
  }

  lemma GenuineToken(w: World, e: Event)
    requires WorldOk(w) && Shaped(w.pool) && Genuine(w, e)
    ensures Current(w.pool, e.token)
  {
  }

  /** Until the fill it joined is delivered, an entry awaits that very fill, the same slot in the same
      generation, and its outcome is pending. */
  lemma {:induction false} AwaitsRun(w: World, es: seq<Event>, entry: nat, t: Token)
    requires WorldOk(w) && Shaped(w.pool) && Awaits(w.pool, entry, t)
    requires forall k :: 0 <= k < |es| ==> !EndsAt(w, es, k, t)
    ensures Awaits(Run(w, es).pool, entry, t)
    ensures Run(w, es).pool.outcomes[entry] == Pending
  {
    hide WorldOk, Apply, Genuine, Awaits, Inv;
    if es == [] {
      WorldInv(w);
      AwaitsPending(w.pool, entry, t);
    } else {
      var last := |es| - 1;
      forall k | 0 <= k < last ensures !EndsAt(w, es[..last], k, t) {
        assert !EndsAt(w, es, k, t) && es[..last][..k] == es[..k];
      }
      AwaitsRun(w, es[..last], entry, t);
      RunOk(w, es[..last]);
      assert !EndsAt(w, es, last, t);
      AwaitsStep(Run(w, es[..last]), es[last], entry, t);
      RunOk(w, es);
      WorldInv(Run(w, es));
      AwaitsPending(Run(w, es).pool, entry, t);
    }
  }

  lemma AwaitsPending(p: Pool, entry: nat, t: Token)
    requires Inv(p) && Shaped(p) && Awaits(p, entry, t)
    ensures p.outcomes[entry] == Pending
  {
    hide Inv;
    LinkedIsPending(p, entry);
  }

  /** The record that owns the entry is in use in every world from the k-th on. */
  predicate InUseFrom(w: World, es: seq<Event>, k: nat, entry: nat)
    requires Shaped(w.pool) && entry < |w.pool.on|
  {
    forall j :: k <= j <= |es| ==> UsedAt(w, es, j, entry)
  }

  predicate UsedAt(w: World, es: seq<Event>, j: nat, entry: nat)
    requires Shaped(w.pool) && entry < |w.pool.on| && j <= |es|
  {
    Run(w, es[..j]).pool.tickets[Owner(w.pool.cfg, entry)].inUse
  }

  /** An outcome that has been written stays as it is while its record is in use. */
  lemma {:induction false} OutcomeStays(w: World, es: seq<Event>, entry: nat)
    requires WorldOk(w) && Shaped(w.pool) && entry < |w.pool.on| && w.pool.on[entry] == NONE
    requires InUseFrom(w, es, 0, entry)
    ensures Run(w, es).pool.on[entry] == NONE && Run(w, es).pool.outcomes[entry] == w.pool.outcomes[entry]
  {
    hide WorldOk, Apply, Genuine, Owner;
    if es != [] {
      var last := |es| - 1;
      forall j | 0 <= j <= last ensures UsedAt(w, es[..last], j, entry) {
        assert UsedAt(w, es, j, entry) && es[..last][..j] == es[..j];
      }
      OutcomeStays(w, es[..last], entry);
      RunOk(w, es[..last]);
      assert UsedAt(w, es, last, entry);
      NotNone(Run(w, es[..last]), es[last]);
      OutcomeWrittenOnce(Run(w, es[..last]), es[last], entry);
    }
  }

  lemma NotNone(w: World, e: Event)
    requires Shaped(w.pool)
    ensures Genuine(w, e) ==> NONE != e.token.index
  {
  }

  lemma {:induction false} RunSplit(w: World, es: seq<Event>, more: seq<Event>)
    requires Shaped(w.pool)
    ensures Run(w, es + more) == Run(Run(w, es), more)
  {
    hide Apply;
    if more == [] {
      assert es + more == es;
    } else {
      var last := |more| - 1;
      RunSplit(w, es, more[..last]);
      assert (es + more)[..|es| + last] == es + more[..last];
    }
  }

  /** The delivery of the fill an entry awaits writes its outcome. */
  lemma OutcomeAtDelivery(w: World, e: Event, entry: nat, t: Token)
    requires WorldOk(w) && Shaped(w.pool) && Awaits(w.pool, entry, t) && Genuine(w, e) && e.token == t
    ensures t in w.pool.requests
    ensures var q := Apply(w, e).pool;
      && q.on[entry] == NONE && q.outcomes[entry] != Pending
      && q.outcomes[entry] == ClassifyFill(e.result, w.pool.requests[t].length)
  {
    hide WorldOk, Apply, Inv, Owner;
    WorldInv(w);
    AwaitingInUse(w.pool, entry);
    OutcomeWrittenOnce(w, e, entry);
  }

  /** From the join to the outcome: an entry that awaits a fill has, from that fill's delivery `e` on and for as
      long as its ticket's record is in use, the result of that delivery, whatever else runs before and after
      it. */
  lemma OutcomeOfItsFill(w: World, before: seq<Event>, e: Event, after: seq<Event>, entry: nat, t: Token)
    requires WorldOk(w) && Shaped(w.pool) && Awaits(w.pool, entry, t)
    requires (forall k :: 0 <= k < |before| ==> !EndsAt(w, before, k, t)) && Genuine(Run(w, before), e) && e.token == t
    requires entry < |Run(w, before + [e]).pool.on| && InUseFrom(Run(w, before + [e]), after, 0, entry)
    ensures var at := Run(w, before);
      && Awaits(at.pool, entry, t) && at.pool.outcomes[entry] == Pending && t in at.pool.requests
      && Run(w, before + [e] + after).pool.outcomes[entry] == ClassifyFill(e.result, at.pool.requests[t].length)
      && Run(w, before + [e] + after).pool.outcomes[entry] != Pending
  {
    hide WorldOk, Apply, Genuine, Awaits, Owner, InUseFrom, Run;
    AwaitsRun(w, before, entry, t);
    RunOk(w, before);
    AwaitsEntry(Run(w, before).pool, entry, t);
    OutcomeAtDelivery(Run(w, before), e, entry, t);
    RunMore(w, before, e);
    RunOk(w, before + [e]);
    OutcomeStays(Run(w, before + [e]), after, entry);
    RunSplit(w, before + [e], after);
  }

  lemma AwaitsEntry(p: Pool, entry: nat, t: Token)
    requires Awaits(p, entry, t)
    ensures entry < |p.on|
  {
  }

  lemma LinkedIsPending(p: Pool, e: nat)
    requires Inv(p) && e < |p.on|
    ensures p.on[e] != NONE ==> p.outcomes[e] == Pending
  {
    assert EntryOk(p, e);
  }

  // ----- the tally of wait() -----

  datatype WaitOutcome = WaitOutcome(status: Status, filled: nat, failed: nat, declined: nat, pending: nat)

  function Count(t: WaitOutcome, outcome: Status): WaitOutcome {
    var counted := match outcome
      case Ok => t.(filled := t.filled + 1)
      case Pending => t.(pending := t.pending + 1)
      case Declined => t.(declined := t.declined + 1)
      case PoolExhausted => t.(declined := t.declined + 1)
      case QueueExhausted => t.(declined := t.declined + 1)
      case _ => t.(failed := t.failed + 1);
    if t.status == Ok && outcome != Ok && outcome != Pending then counted.(status := outcome) else counted
  }

  /** The tally of the first `k` outcomes, in request order. */
  function Tally(outcomes: seq<Status>, k: nat): (t: WaitOutcome)
    requires k <= |outcomes|
  {
    if k == 0 then WaitOutcome(Ok, 0, 0, 0, 0) else Count(Tally(outcomes, k - 1), outcomes[k - 1])
  }

  /** The entries of record `r` that its prefetch used. */
  function Entries(p: Pool, r: nat): (outcomes: seq<Status>)
    requires Shaped(p) && r < |p.tickets| && p.tickets[r].chunks <= p.cfg.maxBatch
    ensures |outcomes| == p.tickets[r].chunks
  {
    BlockInside(p.cfg, r);
    p.outcomes[r * p.cfg.maxBatch..r * p.cfg.maxBatch + p.tickets[r].chunks]
  }

  function Wait(p: Pool, r: nat): WaitOutcome
    requires Shaped(p) && r < |p.tickets| && p.tickets[r].chunks <= p.cfg.maxBatch
  {
    var t := Tally(Entries(p, r), p.tickets[r].chunks);
    if t.pending != 0 then t.(status := Timeout) else t
  }

  /** How many of the outcomes are among these. */
  function Among(outcomes: seq<Status>, kinds: set<Status>): (n: nat) {
    if outcomes == [] then 0
    else Among(outcomes[..|outcomes| - 1], kinds) + if outcomes[|outcomes| - 1] in kinds then 1 else 0
  }

  /** A chunk that was admitted by policy but not by the pool or the queue counts as declined. */
  const DECLINED: set<Status> := {Declined, PoolExhausted, QueueExhausted}

  /** The first outcome, in request order, that is neither ok nor pending. */
  predicate BadAt(outcomes: seq<Status>, i: nat, status: Status)
    requires i < |outcomes|
  {
    && outcomes[i] == status && status != Ok && status != Pending
    && forall j :: 0 <= j < i ==> outcomes[j] == Ok || outcomes[j] == Pending
  }

  predicate FirstBad(outcomes: seq<Status>, k: nat, status: Status)
    requires k <= |outcomes|
  {
    exists i :: 0 <= i < k && BadAt(outcomes, i, status)
  }

  lemma TallyMeaning(outcomes: seq<Status>, k: nat)
    requires k <= |outcomes|
    ensures var t := Tally(outcomes, k);
      && t.filled + t.failed + t.declined + t.pending == k
      && t.filled == Among(outcomes[..k], {Ok}) && t.pending == Among(outcomes[..k], {Pending})
      && t.declined == Among(outcomes[..k], DECLINED)
      && (t.pending == 0 <==> forall i :: 0 <= i < k ==> outcomes[i] != Pending)
      && (t.status == Ok <==> forall i :: 0 <= i < k ==> outcomes[i] == Ok || outcomes[i] == Pending)
      && (t.status == Ok <==> t.failed == 0 && t.declined == 0)
      && (t.status != Ok ==> FirstBad(outcomes, k, t.status))
  {
    hide Tally, Among, FirstBad;
    TallyCounts(outcomes, k);
    TallyStatus(outcomes, k);
  }

  lemma {:induction false} TallyCounts(outcomes: seq<Status>, k: nat)
    requires k <= |outcomes|
    ensures var t := Tally(outcomes, k);
      && t.filled + t.failed + t.declined + t.pending == k
      && t.filled == Among(outcomes[..k], {Ok}) && t.pending == Among(outcomes[..k], {Pending})
      && t.declined == Among(outcomes[..k], DECLINED)
  {
    if k > 0 {
      TallyCounts(outcomes, k - 1);
      assert outcomes[..k][..k - 1] == outcomes[..k - 1];
    }
  }

  lemma {:induction false} TallyStatus(outcomes: seq<Status>, k: nat)
    requires k <= |outcomes|
    ensures var t := Tally(outcomes, k);
      && (t.pending == 0 <==> forall i :: 0 <= i < k ==> outcomes[i] != Pending)
      && (t.status == Ok <==> forall i :: 0 <= i < k ==> outcomes[i] == Ok || outcomes[i] == Pending)
      && (t.status == Ok <==> t.failed == 0 && t.declined == 0)
      && (t.status != Ok ==> FirstBad(outcomes, k, t.status))
  {
    if k > 0 {
      TallyStatus(outcomes, k - 1);
      var before := Tally(outcomes, k - 1);
      if before.status != Ok {
        var i :| 0 <= i < k - 1 && BadAt(outcomes, i, before.status);
        assert BadAt(outcomes, i, Tally(outcomes, k).status);
      } else if outcomes[k - 1] != Ok && outcomes[k - 1] != Pending {
        assert BadAt(outcomes, k - 1, outcomes[k - 1]);
      }
    }
  }

  /** What wait reports of an issued ticket: every chunk is counted once; nothing is pending, and the
      status is not timeout on that account, exactly when the record's pending count is zero; the status
      is ok exactly when every chunk filled, and otherwise the first failure in request order. */
  lemma WaitReports(p: Pool, r: nat)
    requires Inv(p) && PendingLinked(p) && r < |p.tickets|
    ensures p.tickets[r].chunks <= p.cfg.maxBatch
    ensures var t := Wait(p, r);
      && t.filled + t.failed + t.declined + t.pending == p.tickets[r].chunks
      && t.filled == Among(Entries(p, r), {Ok}) && t.pending == Among(Entries(p, r), {Pending})
      && t.declined == Among(Entries(p, r), DECLINED)
      && (t.pending == 0 <==> p.tickets[r].pending == 0)
      && (t.pending != 0 ==> t.status == Timeout)
      && (t.pending == 0 ==>
            (t.status == Ok <==> forall i :: 0 <= i < p.tickets[r].chunks ==> Entries(p, r)[i] == Ok)
            && (t.status != Ok ==> FirstBad(Entries(p, r), p.tickets[r].chunks, t.status)))
  {
    assert TicketOk(p, r);
    hide Inv, PendingLinked;
    TallyMeaning(Entries(p, r), p.tickets[r].chunks);
    assert Entries(p, r)[..p.tickets[r].chunks] == Entries(p, r);
    PendingIffLinked(p, r);
  }

  /** Linked is pending, entry by entry. */
  lemma BlockEntry(p: Pool, r: nat, i: nat)
    requires Inv(p) && PendingLinked(p) && r < |p.tickets| && i < p.cfg.maxBatch
    ensures 0 <= r * p.cfg.maxBatch + i < |p.on| && |Block(p.on, p.cfg, r)| == p.cfg.maxBatch
    ensures Block(p.on, p.cfg, r)[i] == p.on[r * p.cfg.maxBatch + i]
    ensures Block(p.on, p.cfg, r)[i] != NONE <==>
        i < p.tickets[r].chunks && p.outcomes[r * p.cfg.maxBatch + i] == Pending
  {
    hide SlotSide, LogOk, TicketsOk;
    EntryInBlock(p.cfg, r, i);
    BlockInside(p.cfg, r);
    var e := r * p.cfg.maxBatch + i;
    OwnerBlock(p.cfg, e, r);
    assert EntryOk(p, e) && EntryAwaits(p, e);
  }

  lemma PendingIffLinked(p: Pool, r: nat)
    requires Inv(p) && Shaped(p) && PendingLinked(p) && r < |p.tickets| && p.tickets[r].chunks <= p.cfg.maxBatch
    requires p.tickets[r].pending == Linked(p.on, p.cfg, r)
    ensures p.tickets[r].pending == 0 <==> forall i :: 0 <= i < p.tickets[r].chunks ==> Entries(p, r)[i] != Pending
  {
    hide Inv, PendingLinked;
    BlockInside(p.cfg, r);
    var block := Block(p.on, p.cfg, r);
    SumBounds(block, LinkedWeight);
    if p.tickets[r].pending == 0 {
      forall i | 0 <= i < p.tickets[r].chunks ensures Entries(p, r)[i] != Pending {
        BlockEntry(p, r, i);
        assert LinkedWeight(block[i]) <= 0;
      }
    } else {
      var i :| 0 <= i < |block| && 0 < LinkedWeight(block[i]);
      BlockEntry(p, r, i);
      assert Entries(p, r)[i] == Pending;
    }
  }

  // ----- sleeping on the condition variable -----

  /** What a sleeping thread waits for: a ticket's fills, its own resolve's fills, or all fills. */
  datatype Sleeper = OnTicket(record: nat) | OnCall(call: nat) | OnIdle

  /** The predicate of the thread's wait is false: it has reason to sleep. */
  predicate Blocked(w: World, s: Sleeper)
    requires Shaped(w.pool)
  {
    match s
    case OnTicket(r) => r < |w.pool.tickets| && 0 < w.pool.tickets[r].pending
    case OnCall(c) => c < |w.waiting| && LeasesInPool(w.pool, w.waiting[c]) && StillFilling(w.pool, w.waiting[c])
    case OnIdle => 0 < w.pool.inFlight
  }

  datatype Monitor = Monitor(world: World, asleep: map<nat, Sleeper>)

  /** A thread tests its predicate under the lock and sleeps if it is false; it may also wake for no
      reason, or because its deadline passed. A genuine delivery notifies all. */
  datatype Action = Act(event: Event) | Sleep(thread: nat, on: Sleeper) | Wake(thread: nat)

  function Do(m: Monitor, a: Action): (m': Monitor)
    requires Shaped(m.world.pool)
    ensures Shaped(m'.world.pool)
  {
    match a
    case Act(e) => Monitor(Apply(m.world, e), if Genuine(m.world, e) then map[] else m.asleep)
    case Sleep(thread, s) => if Blocked(m.world, s) then m.(asleep := m.asleep[thread := s]) else m
    case Wake(thread) => m.(asleep := m.asleep - {thread})
  }

  function DoAll(m: Monitor, actions: seq<Action>): (m': Monitor)
    requires Shaped(m.world.pool)
    ensures Shaped(m'.world.pool)
  {
    if actions == [] then m else Do(DoAll(m, actions[..|actions| - 1]), actions[|actions| - 1])
  }

  ghost predicate MonitorOk(m: Monitor) {
    Shaped(m.world.pool) && WorldOk(m.world) && forall t :: t in m.asleep ==> Blocked(m.world, m.asleep[t])
  }

  lemma IdleStays(p: Pool, q: Pool)
    requires Inv(p) && Inv(q) && FillsSteady(p, q) && 0 < p.inFlight
    ensures 0 < q.inFlight
  {
    SumBounds(p.slots, FillingWeight);
    SumBounds(q.slots, FillingWeight);
    var i :| 0 <= i < |p.slots| && 0 < FillingWeight(p.slots[i]);
    assert FillSteady(p.slots[i], q.slots[i]);
    assert FillingWeight(q.slots[i]) == 1;
  }

  lemma CallStaysBlocked(w: World, e: Event, c: nat)
    requires WorldOk(w) && Shaped(w.pool) && !Genuine(w, e) && Blocked(w, OnCall(c))
    ensures Blocked(Apply(w, e), OnCall(c))
  {
    hide WorldOk, Apply, Genuine;
    WaitShrinks(w, e, c);
    var w' := Apply(w, e);
    var i :| 0 <= i < |w.waiting[c]| && w.pool.slots[w.waiting[c][i].slot].state.Filling?;
    assert i in Awaited(w, c);
    assert i in Awaited(w', c);
  }

  lemma TicketStaysBlocked(w: World, e: Event, r: nat)
    requires WorldOk(w) && Shaped(w.pool) && !Genuine(w, e) && Blocked(w, OnTicket(r))
    ensures Blocked(Apply(w, e), OnTicket(r))
  {
    hide Apply, Genuine;
    assert TicketOk(w.pool, r);
    EventEntries(w, e);
  }

  /** Only a genuine delivery can make true what a sleeping thread waits for. */
  lemma StaysBlocked(w: World, e: Event, s: Sleeper)
    requires WorldOk(w) && Shaped(w.pool) && !Genuine(w, e) && Blocked(w, s)
    ensures Blocked(Apply(w, e), s)
  {
    hide Apply, Genuine, Inv, PinsMatch, LeasesOk, MemoryOk, OwedOk, PendingLinked, FillsSteady;
    match s
    case OnTicket(r) => TicketStaysBlocked(w, e, r);
    case OnCall(c) => CallStaysBlocked(w, e, c);
    case OnIdle =>
      EventSteady(w, e);
      EventOk(w, e);
      IdleStays(w.pool, Apply(w, e).pool);
  }

  lemma DoOk(m: Monitor, a: Action)
    requires MonitorOk(m)
    ensures MonitorOk(Do(m, a))
  {
    hide Apply, Genuine, WorldOk, Blocked, Shaped;
    match a
    case Act(e) =>
      EventOk(m.world, e);
      if !Genuine(m.world, e) {
        forall t | t in m.asleep ensures Blocked(Apply(m.world, e), m.asleep[t]) {
          StaysBlocked(m.world, e, m.asleep[t]);
        }
      }
    case Sleep(thread, s) =>
    case Wake(thread) =>
  }

  /** No missed wakeup: in every reachable state of the monitor, whatever the interleaving of threads,
      spurious wakeups and deliveries, the predicate of every sleeping thread is false. */
  lemma {:induction false} NoMissedWakeup(m: Monitor, actions: seq<Action>)
    requires MonitorOk(m)
    ensures MonitorOk(DoAll(m, actions))
    ensures forall t :: t in DoAll(m, actions).asleep ==> Blocked(DoAll(m, actions).world, DoAll(m, actions).asleep[t])
  {
    hide Do;
    if actions != [] {
      NoMissedWakeup(m, actions[..|actions| - 1]);
      DoOk(DoAll(m, actions[..|actions| - 1]), actions[|actions| - 1]);
    }
  }
}
