/** The condition variable of a transfer set (transfer_set.hpp, progress_): threads that wait for a claim, or
    for the set to drain. */
module TransferWaits {
  import opened Sums
  import opened TransferModel
  import opened TransferRuns

  datatype Sleeper = OnClaim(record: nat) | OnIdle

  /** The predicate of the thread's wait is false: it has reason to sleep. */
  predicate Blocked(w: World, s: Sleeper) {
    match s
    case OnClaim(r) => r < |w.transfers.records| && w.transfers.records[r].state.Submitted?
    case OnIdle => 0 < w.transfers.counters.inFlight
  }

  /** The event is the one delivery of a transfer in flight: the only kind that notifies. */
  predicate Genuine(w: World, e: Event) { e.Deliver? && Enabled(w, e) && Current(w.transfers, e.token) }

  lemma SubmittedStays(w: World, e: Event, r: nat)
    requires WorldOk(w) && Shaped(w.transfers) && !Genuine(w, e) && Blocked(w, OnClaim(r))
    ensures Blocked(Apply(w, e), OnClaim(r))
  {
    hide Honest, Apart, Counted, LogOk, FreeOk, MemoryOk;
    if e != Release(r) {
      RecordKept(w, e, r);
    }
  }

  lemma IdleMeaning(t: Transfers)
    requires Inv(t)
    ensures 0 < t.counters.inFlight <==> exists r :: 0 <= r < |t.records| && t.records[r].state.Submitted?
  {
    hide Apart, LogOk, FreeOk, RecordsOk;
    SumBounds(t.records, SubmittedWeight);
    if 0 < t.counters.inFlight {
      var r :| 0 <= r < |t.records| && 0 < SubmittedWeight(t.records[r]);
      assert t.records[r].state.Submitted?;
    }
    if r :| 0 <= r < |t.records| && t.records[r].state.Submitted? {
      assert SubmittedWeight(t.records[r]) <= Sum(t.records, SubmittedWeight);
    }
  }

  /** Only a genuine delivery can make true what a sleeping thread waits for. */
  lemma StaysBlocked(w: World, e: Event, s: Sleeper)
    requires WorldOk(w) && Shaped(w.transfers) && !Genuine(w, e) && Blocked(w, s)
    ensures Blocked(Apply(w, e), s)
  {
    hide Apply, Genuine, Inv, OwedOk, MemoryOk;
    match s
    case OnClaim(r) => SubmittedStays(w, e, r);
    case OnIdle =>
      EventOk(w, e);
      IdleMeaning(w.transfers);
      IdleMeaning(Apply(w, e).transfers);
      var r :| 0 <= r < |w.transfers.records| && w.transfers.records[r].state.Submitted?;
      SubmittedStays(w, e, r);
  }

  datatype Monitor = Monitor(world: World, asleep: map<nat, Sleeper>)

  /** A thread tests its predicate under the lock and sleeps if it is false; it may also wake for no
      reason, or because its deadline passed. A genuine delivery notifies all. */
  datatype Action = Act(event: Event) | Sleep(thread: nat, on: Sleeper) | Wake(thread: nat)

  function Do(m: Monitor, a: Action): (m': Monitor)
    requires Shaped(m.world.transfers)
    ensures Shaped(m'.world.transfers)
  {
    match a
    case Act(e) => Monitor(Apply(m.world, e), if Genuine(m.world, e) then map[] else m.asleep)
    case Sleep(thread, s) => if Blocked(m.world, s) then m.(asleep := m.asleep[thread := s]) else m
    case Wake(thread) => m.(asleep := m.asleep - {thread})
  }

  function DoAll(m: Monitor, actions: seq<Action>): (m': Monitor)
    requires Shaped(m.world.transfers)
    ensures Shaped(m'.world.transfers)
  {
    if actions == [] then m else Do(DoAll(m, actions[..|actions| - 1]), actions[|actions| - 1])
  }

  ghost predicate MonitorOk(m: Monitor) {
    Shaped(m.world.transfers) && WorldOk(m.world) && forall t :: t in m.asleep ==> Blocked(m.world, m.asleep[t])
  }

  lemma DoOk(m: Monitor, a: Action)
    requires MonitorOk(m)
    ensures MonitorOk(Do(m, a))
  {
    hide Apply, Genuine, WorldOk, Blocked, Shaped;
    match a
    case Act(e) =>
      EventOk(m.world, e);
      if !Genuine(m.world, e) {
        forall t | t in m.asleep ensures Blocked(Apply(m.world, e), m.asleep[t]) {
          StaysBlocked(m.world, e, m.asleep[t]);
        }
      }
    case Sleep(thread, s) =>
    case Wake(thread) =>
  }

  /** No missed wakeup: in every reachable state of the monitor, whatever the interleaving of threads,
      spurious wakeups and deliveries, every sleeping thread still has reason to sleep. */
  lemma {:induction false} NoMissedWakeup(m: Monitor, actions: seq<Action>)
    requires MonitorOk(m)
    ensures MonitorOk(DoAll(m, actions))
    ensures forall t :: t in DoAll(m, actions).asleep ==> Blocked(DoAll(m, actions).world, DoAll(m, actions).asleep[t])
  {
    hide Do;
    if actions != [] {
      NoMissedWakeup(m, actions[..|actions| - 1]);
      DoOk(DoAll(m, actions[..|actions| - 1]), actions[|actions| - 1]);
    }
  }
}
