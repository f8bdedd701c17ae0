/** The tickets prefetch hands out (slot_pool.hpp): each names its record's present generation until its owner lets
    go of it, and no two are alike. So the owner's waits and discards are always of a current ticket. */
module PoolTickets {
  import opened Transfer
  import opened PoolState
  import opened ChunkTiling
  import opened PoolModel
  import opened PoolInvariant
  import opened PoolSteps
  import opened PoolRuns
  import W = PoolWaits

  /** The ticket is current and held: what its owner's wait and discard demand. */
  predicate Good(p: Pool, record: nat, generation: nat) {
    record < |p.tickets| && p.tickets[record].generation == generation && p.tickets[record].held
  }

  predicate GenerationsGrow(p: Pool, q: Pool) {
    |q.tickets| == |p.tickets| && forall r :: 0 <= r < |p.tickets| ==>
        p.tickets[r].generation <= q.tickets[r].generation
  }

  /** No event takes a generation back, and none but its own discard ends a ticket. */
  lemma TicketStep(w: World, e: Event, record: nat, generation: nat)
    requires WorldOk(w) && Shaped(w.pool)
    ensures GenerationsGrow(w.pool, Apply(w, e).pool)
    ensures Good(w.pool, record, generation) && e != DiscardTicket(record) ==>
      Good(Apply(w, e).pool, record, generation)
  {
    hide WorldOk, PoolModel.Prefetch, PoolModel.ResolveBegin, PoolModel.ResolveFinish, PoolModel.TryResolve,
         PoolModel.WontNeed, OnComplete, Unpin, StillFilling, Honest, Outstanding;
    WorldInv(w);
    if Enabled(w, e) {
      match e
      case Prefetch(ranges, admission, answers) => PrefetchTickets(w.pool, ranges, admission, answers, record);
      case DiscardTicket(r) =>
      case Deliver(t, result) => DeliveryTickets(w.pool, t, result);
      case _ =>
    }
  }

  lemma PrefetchTickets(p: Pool, ranges: seq<ByteRange>, admission: AdmissionClass, answers: seq<bool>, record: nat)
    requires Inv(p) && Shaped(p) && PendingLinked(p)
    ensures var q := PoolModel.Prefetch(p, ranges, admission, answers).0;
      && GenerationsGrow(p, q)
      && (record < |p.tickets| && p.tickets[record].held ==> q.tickets[record] == p.tickets[record])
  {
    hide PendingLinked, PoolModel.Prefetch, Kept, CheckBatch;
    W.PrefetchOthers(p, ranges, admission, answers);
    PrefetchInv(p, ranges, admission, answers);
    if record < |p.tickets| {
      assert TicketOk(p, record);
    }
  }

  lemma DeliveryTickets(p: Pool, t: Token, result: FillResult)
    requires Shaped(p)
    ensures var q := OnComplete(p, t, result);
      && |q.tickets| == |p.tickets|
      && forall r :: 0 <= r < |p.tickets| ==>
           q.tickets[r].generation == p.tickets[r].generation && q.tickets[r].held == p.tickets[r].held
  {
    hide FinishFill, Linked;
  }

  lemma {:induction false} TicketRun(w: World, es: seq<Event>, record: nat, generation: nat)
    requires WorldOk(w) && Shaped(w.pool)
    ensures GenerationsGrow(w.pool, Run(w, es).pool)
    ensures Good(w.pool, record, generation) && DiscardTicket(record) !in es ==>
      Good(Run(w, es).pool, record, generation)
  {
    hide WorldOk, Apply, Good;
    if es != [] {
      var last := |es| - 1;
      assert es[last] in es;
      TicketRun(w, es[..last], record, generation);
      RunOk(w, es[..last]);
      TicketStep(Run(w, es[..last]), es[last], record, generation);
    }
  }

  /** The prefetch of event `k` issued the ticket. */
  predicate IssuedAt(w: World, es: seq<Event>, k: nat, record: nat, generation: nat)
    requires Shaped(w.pool)
  {
    && k < |es| && es[k].Prefetch?
    && PoolModel.Prefetch(Run(w, es[..k]).pool, es[k].ranges, es[k].admission, es[k].answers).1
         == Issued(record, generation)
  }

  lemma JustIssued(w: World, e: Event, record: nat, generation: nat)
    requires WorldOk(w) && Shaped(w.pool) && e.Prefetch?
    requires PoolModel.Prefetch(w.pool, e.ranges, e.admission, e.answers).1 == Issued(record, generation)
    ensures record < |w.pool.tickets| && generation == w.pool.tickets[record].generation + 1
    ensures Good(Apply(w, e).pool, record, generation)
  {
    hide PoolModel.Prefetch, Inv, PendingLinked, Kept, CheckBatch, MemoryOk, OwedOk, PinsMatch, LeasesOk;
    PrefetchInv(w.pool, e.ranges, e.admission, e.answers);
    W.PrefetchOthers(w.pool, e.ranges, e.admission, e.answers);
  }

  /** From its prefetch to its own discard, over every run: the ticket is current and held, so that the discard is
      enabled whenever its owner comes to it. */
  lemma TicketStaysGood(w: World, es: seq<Event>, k: nat, record: nat, generation: nat)
    requires WorldOk(w) && Shaped(w.pool) && IssuedAt(w, es, k, record, generation)
    requires forall i :: k < i < |es| ==> es[i] != DiscardTicket(record)
    ensures Good(Run(w, es).pool, record, generation)
    ensures Enabled(Run(w, es), DiscardTicket(record))
  {
    hide WorldOk, Apply, Run, PoolModel.Prefetch;
    RunOk(w, es[..k]);
    JustIssued(Run(w, es[..k]), es[k], record, generation);
    RunMore(w, es[..k], es[k]);
    RunOk(w, es[..k] + [es[k]]);
    var after := es[k + 1..];
    assert forall i :: 0 <= i < |after| ==> after[i] == es[k + 1 + i];
    TicketRun(Run(w, es[..k] + [es[k]]), after, record, generation);
    W.RunSplit(w, es[..k] + [es[k]], after);
    assert es == es[..k] + [es[k]] + after;
  }

  /** No two prefetches of a run issue the same ticket. */
  lemma NoTwoAlike(w: World, es: seq<Event>, j: nat, k: nat, record: nat, first: nat, second: nat)
    requires WorldOk(w) && Shaped(w.pool) && j < k
    requires IssuedAt(w, es, j, record, first) && IssuedAt(w, es, k, record, second)
    ensures first < second
  {
    hide WorldOk, Apply, Run, PoolModel.Prefetch;
    RunOk(w, es[..j]);
    JustIssued(Run(w, es[..j]), es[j], record, first);
    RunMore(w, es[..j], es[j]);
    RunOk(w, es[..j] + [es[j]]);
    var between := es[j + 1..k];
    TicketRun(Run(w, es[..j] + [es[j]]), between, record, first);
    W.RunSplit(w, es[..j] + [es[j]], between);
    assert es[..k] == es[..j] + [es[j]] + between;
    RunOk(w, es[..k]);
    JustIssued(Run(w, es[..k]), es[k], record, second);
  }
}
