/** Every interleaving of the backend's workers, its submitters and a shutdown, as a monitor with
    `notify_one` and spurious wakeups: exactly-once delivery in queue order, no stranded request, and
    statistics that add up at every point. */
module BackendRuns {
  import opened Transfer
  import opened Sums
  import opened BackendModel

  /** Where a worker thread is: runnable and not holding a request, asleep in its wait, performing a
      request it took, done with its delivery but not yet with recording it, or returned. */
  datatype Worker = Awake | Asleep | Performing(item: WorkItem) | Recording(item: WorkItem, result: FillResult) | Exited

  /** Where the first shutdown call is: what it has drained and not yet delivered, and whether the
      cancellation it delivered last is still to be counted. */
  datatype Drain = Idle | Draining(rest: seq<WorkItem>, uncounted: bool) | Returned

  datatype Delivery = Delivery(item: WorkItem, result: FillResult)

  /** `accepted` and `taken` are every request accepted, and every request that has left the queue, in order. */
  datatype World = World(core: Core, workers: seq<Worker>, drain: Drain, accepted: seq<WorkItem>, taken: seq<WorkItem>,
                         log: seq<Delivery>)

  /** A submit that finds sleepers wakes one of them: `wakes`, whichever it is. */
  datatype Event =
    | Register(source: Source)
    | Submit(request: FillRequest, wakes: nat)
    | Spurious(worker: nat)
    | Step(worker: nat)
    | Finish(worker: nat, result: FillResult)
    | Shutdown
    | Cancel
    | Join

  function Create(capacity: nat, maxSources: nat, workers: nat): World {
    World(BackendModel.Create(capacity, maxSources), seq(workers, _ => Awake), Idle, [], [], [])
  }

  predicate NoneAsleep(workers: seq<Worker>) { forall i :: 0 <= i < |workers| ==> !workers[i].Asleep? }

  predicate AllExited(workers: seq<Worker>) { forall i :: 0 <= i < |workers| ==> workers[i].Exited? }

  predicate Enabled(w: World, e: Event) {
    match e
    case Register(_) => true
    case Submit(_, wakes) => NoneAsleep(w.workers) || (wakes < |w.workers| && w.workers[wakes].Asleep?)
    case Spurious(i) => i < |w.workers| && w.workers[i].Asleep?
    case Step(i) => i < |w.workers| && (w.workers[i].Awake? || w.workers[i].Recording?)
    case Finish(i, result) =>
      i < |w.workers| && w.workers[i].Performing?
          && (result.status == Ok || result.status == IoError || result.status == InvalidArgument)
    case Shutdown => true
    case Cancel => w.drain.Draining? && (w.drain.uncounted || w.drain.rest != [])
    case Join => w.drain == Draining([], false) && AllExited(w.workers)
  }

  /** A worker takes the lock: it records what it has delivered, or takes the oldest request, or returns
      if there will be no more, or goes to sleep. */
  function StepWorker(w: World, i: nat): World
    requires i < |w.workers| && (w.workers[i].Awake? || w.workers[i].Recording?)
  {
    if w.workers[i].Recording? then
      w.(core := Record(w.core, w.workers[i].item, w.workers[i].result), workers := w.workers[i := Awake])
    else if w.core.queue != [] then
      var (c, item) := Dequeue(w.core);
      w.(core := c, workers := w.workers[i := Performing(item)], taken := w.taken + [item])
    else w.(workers := w.workers[i := if w.core.shuttingDown then Exited else Asleep])
  }

  function WakeAll(workers: seq<Worker>): (r: seq<Worker>)
    ensures |r| == |workers| && NoneAsleep(r)
  {
    seq(|workers|, i requires 0 <= i < |workers| => if workers[i].Asleep? then Awake else workers[i])
  }

  /** Only the first call drains; its deliveries follow one by one, outside the lock. */
  function StartShutdown(w: World): World {
    if w.core.shuttingDown then w
    else
      var (c, items) := BeginShutdown(w.core);
      w.(core := c, workers := WakeAll(w.workers), drain := Draining(items, false), taken := w.taken + items)
  }

  function Apply(w: World, e: Event): World {
    if !Enabled(w, e) then w
    else match e
      case Register(source) => w.(core := BackendModel.Register(w.core, source).0)
      case Submit(request, wakes) =>
        var (c, ok) := BackendModel.Submit(w.core, request);
        if !ok then w.(core := c)
        else
          w.(core := c, accepted := w.accepted + [ItemFor(w.core, request)],
             workers := if NoneAsleep(w.workers) then w.workers else w.workers[wakes := Awake])
      case Spurious(i) => w.(workers := w.workers[i := Awake])
      case Step(i) => StepWorker(w, i)
      case Finish(i, result) =>
        w.(workers := w.workers[i := Recording(w.workers[i].item, result)],
           log := w.log + [Delivery(w.workers[i].item, result)])
      case Shutdown => StartShutdown(w)
      case Cancel =>
        if w.drain.uncounted then w.(core := RecordCancelled(w.core), drain := w.drain.(uncounted := false))
        else
          w.(drain := Draining(w.drain.rest[1..], true),
             log := w.log + [Delivery(w.drain.rest[0], FillResult(Cancelled, 0))])
      case Join => w.(drain := Returned)
  }

  function After(w: World, es: seq<Event>, k: nat): World
    requires k <= |es|
  {
    if k == 0 then w else Apply(After(w, es, k - 1), es[k - 1])
  }

  // ----- the queue is a bounded FIFO -----

  /** What was accepted is what was taken, in order, followed by what is queued. */
  predicate FifoOk(w: World) {
    && w.accepted == w.taken + w.core.queue
    && |w.core.queue| <= w.core.stats.highWater <= w.core.capacity
    && (forall i :: 0 <= i < |w.accepted| ==> w.accepted[i].call < w.core.calls)
    && (forall i, j :: 0 <= i < j < |w.accepted| ==> w.accepted[i].call != w.accepted[j].call)
  }

  lemma FifoStep(w: World, e: Event)
    requires FifoOk(w)
    ensures FifoOk(Apply(w, e))
  {
    hide NoneAsleep, AllExited, Find;
  }

  // ----- nobody is stranded -----

  function AwakeWeight(x: Worker): int { if x.Awake? then 1 else 0 }
  function BusyWeight(x: Worker): int { if x.Performing? || x.Recording? then 1 else 0 }

  /** Either no worker sleeps, or there are at least as many runnable, unoccupied workers as queued requests.
      Once shutdown has begun nobody sleeps, the queue stays empty, and only then do workers return. */
  predicate WakeOk(w: World) {
    && (NoneAsleep(w.workers) || Sum(w.workers, AwakeWeight) >= |w.core.queue|)
    && (w.core.shuttingDown ==> w.core.queue == [] && NoneAsleep(w.workers))
    && (w.core.shuttingDown <==> !w.drain.Idle?)
    && (w.drain.Returned? ==> AllExited(w.workers))
    && (forall i :: 0 <= i < |w.workers| && w.workers[i].Exited? ==> w.core.shuttingDown)
  }

  lemma OneWorker(workers: seq<Worker>, i: nat, x: Worker)
    requires i < |workers|
    ensures Sum(workers[i := x], AwakeWeight) == Sum(workers, AwakeWeight) - AwakeWeight(workers[i]) + AwakeWeight(x)
    ensures Sum(workers[i := x], BusyWeight) == Sum(workers, BusyWeight) - BusyWeight(workers[i]) + BusyWeight(x)
    ensures Sum(workers, AwakeWeight) >= AwakeWeight(workers[i])
  {
    SumUpdate(workers, i, x, AwakeWeight);
    SumUpdate(workers, i, x, BusyWeight);
    SumBounds(workers, AwakeWeight);
  }

  lemma WakeShutdown(w: World)
    requires WakeOk(w)
    ensures WakeOk(StartShutdown(w))
  {
  }

  lemma WakeStep(w: World, e: Event)
    requires WakeOk(w)
    ensures WakeOk(Apply(w, e))
  {
    hide StepWorker, StartShutdown, Find;
    if Enabled(w, e) {
      SumBounds(w.workers, AwakeWeight);
      match e
      case Submit(_, wakes) =>
        if !NoneAsleep(w.workers) {
          OneWorker(w.workers, wakes, Awake);
        }
      case Spurious(i) => OneWorker(w.workers, i, Awake);
      case Step(i) => StepWakes(w, i);
      case Finish(i, result) => OneWorker(w.workers, i, Recording(w.workers[i].item, result));
      case Shutdown => WakeShutdown(w);
      case _ =>
    }
  }

  lemma StepWakes(w: World, i: nat)
    requires WakeOk(w) && Enabled(w, Step(i))
    ensures WakeOk(StepWorker(w, i))
  {
    var w' := StepWorker(w, i);
    OneWorker(w.workers, i, w'.workers[i]);
    SumBounds(w'.workers, AwakeWeight);
  }

  /** A request waits in the queue only while some worker is runnable or every worker is occupied. */
  lemma NotStranded(w: World)
    requires WakeOk(w) && w.core.queue != []
    ensures (exists i :: 0 <= i < |w.workers| && w.workers[i].Awake?) ||
            (forall i :: 0 <= i < |w.workers| ==> w.workers[i].Performing? || w.workers[i].Recording?)
  {
    SumBounds(w.workers, AwakeWeight);
  }

  // ----- exactly once -----

  function Is(x: WorkItem): WorkItem -> int { (item: WorkItem) => if item == x then 1 else 0 }
  function Owns(x: WorkItem): Worker -> int
  {
    (worker: Worker) => if worker.Performing? && worker.item == x then 1 else 0
  }
  function Delivers(x: WorkItem): Delivery -> int { (d: Delivery) => if d.item == x then 1 else 0 }

  function Rest(w: World): seq<WorkItem> { if w.drain.Draining? then w.drain.rest else [] }

  /** Each request that left the queue is with one worker, or with shutdown, or delivered: once in all. */
  predicate Placed(w: World, x: WorkItem) {
    Sum(w.workers, Owns(x)) + Sum(Rest(w), Is(x)) + Sum(w.log, Delivers(x)) == Sum(w.taken, Is(x))
  }

  lemma PlacedWorker(w: World, i: nat, x: WorkItem)
    requires Placed(w, x) && Enabled(w, Step(i))
    ensures Placed(StepWorker(w, i), x)
  {
    var w' := StepWorker(w, i);
    SumUpdate(w.workers, i, w'.workers[i], Owns(x));
    if w.workers[i].Awake? && w.core.queue != [] {
      SumAppend(w.taken, [w.core.queue[0]], Is(x));
      SumOne(w.core.queue[0], Is(x));
    }
  }

  lemma LoggedOne(log: seq<Delivery>, d: Delivery, x: WorkItem)
    ensures Sum(log + [d], Delivers(x)) == Sum(log, Delivers(x)) + if d.item == x then 1 else 0
  {
    SumAppend(log, [d], Delivers(x));
    SumOne(d, Delivers(x));
  }

  lemma PlacedShutdown(w: World, x: WorkItem)
    requires Placed(w, x) && (w.core.shuttingDown <==> !w.drain.Idle?)
    ensures Placed(StartShutdown(w), x)
  {
    if !w.core.shuttingDown {
      SumAppend(w.taken, w.core.queue, Is(x));
      SumSame(w.workers, WakeAll(w.workers), Owns(x));
    }
  }

  lemma PlacedStep(w: World, e: Event, x: WorkItem)
    requires Placed(w, x) && (w.core.shuttingDown <==> !w.drain.Idle?)
    ensures Placed(Apply(w, e), x)
  {
    hide NoneAsleep, AllExited, Find, StepWorker, StartShutdown;
    var w' := Apply(w, e);
    if Enabled(w, e) {
      match e
      case Submit(_, wakes) =>
        if wakes < |w.workers| {
          SumUpdate(w.workers, wakes, Awake, Owns(x));
        }
      case Spurious(i) => SumUpdate(w.workers, i, Awake, Owns(x));
      case Step(i) =>
        PlacedWorker(w, i, x);
      case Finish(i, result) =>
        SumUpdate(w.workers, i, w'.workers[i], Owns(x));
        LoggedOne(w.log, Delivery(w.workers[i].item, result), x);
      case Shutdown =>
        PlacedShutdown(w, x);
      case Cancel =>
        if !w.drain.uncounted {
          LoggedOne(w.log, Delivery(w.drain.rest[0], FillResult(Cancelled, 0)), x);
        }
      case _ =>
    }
  }

  lemma DrainKnown(w: World)
    requires WakeOk(w)
    ensures w.core.shuttingDown <==> !w.drain.Idle?
  {
  }

  ghost predicate OnceOk(w: World) { forall x :: Placed(w, x) }

  // ----- statistics -----

  predicate StatsOk(w: World) {
    var s := w.core.stats;
    && s.accepted == |w.accepted| && s.accepted + s.rejected == w.core.calls
    && s.inFlight == Sum(w.workers, BusyWeight)
    && s.accepted == s.completedOk + s.shortReads + s.errors + s.cancelled + |w.core.queue| + s.inFlight + |Rest(w)|
                     + (if w.drain.Draining? && w.drain.uncounted then 1 else 0)
  }

  lemma StatsWorker(w: World, i: nat)
    requires StatsOk(w) && Enabled(w, Step(i))
    ensures StatsOk(StepWorker(w, i))
  {
    OneWorker(w.workers, i, StepWorker(w, i).workers[i]);
  }

  lemma StatsShutdown(w: World)
    requires StatsOk(w) && (w.core.shuttingDown <==> !w.drain.Idle?)
    ensures StatsOk(StartShutdown(w))
  {
    SumSame(w.workers, WakeAll(w.workers), BusyWeight);
  }

  lemma StatsStep(w: World, e: Event)
    requires StatsOk(w) && WakeOk(w)
    ensures StatsOk(Apply(w, e))
  {
    hide NoneAsleep, AllExited, Find, StepWorker, StartShutdown;
    var w' := Apply(w, e);
    if Enabled(w, e) {
      match e
      case Submit(_, wakes) =>
        if wakes < |w.workers| && w.workers[wakes].Asleep? {
          OneWorker(w.workers, wakes, Awake);
        } else {
          NobodyWoken(w, e);
        }
      case Spurious(i) => OneWorker(w.workers, i, Awake);
      case Step(i) => StatsWorker(w, i);
      case Finish(i, result) => OneWorker(w.workers, i, w'.workers[i]);
      case Shutdown => StatsShutdown(w);
      case _ =>
    }
  }

  lemma NobodyWoken(w: World, e: Event)
    requires Enabled(w, e) && e.Submit? && !(e.wakes < |w.workers| && w.workers[e.wakes].Asleep?)
    ensures Apply(w, e).workers == w.workers
  {
  }

  /** What a delivery was: all the bytes, fewer than asked for, an error, or a cancellation. */
  datatype Kind = Full | Short | Error | Dropped

  function KindOf(item: WorkItem, result: FillResult): Kind {
    if result.status == Cancelled then Dropped
    else if result.status != Ok then Error
    else if result.bytes == item.request.length then Full else Short
  }

  function Statistic(s: Stats, kind: Kind): nat {
    match kind
    case Full => s.completedOk
    case Short => s.shortReads
    case Error => s.errors
    case Dropped => s.cancelled
  }

  function OfKind(kind: Kind): Delivery -> int { (d: Delivery) => if KindOf(d.item, d.result) == kind then 1 else 0 }
  function Unrecorded(kind: Kind): Worker -> int {
    (x: Worker) => if x.Recording? && KindOf(x.item, x.result) == kind then 1 else 0
  }

  /** Each statistic, with what is delivered but still to be recorded, counts the deliveries of its kind. */
  predicate Tallied(w: World, kind: Kind) {
    Statistic(w.core.stats, kind) + Sum(w.workers, Unrecorded(kind))
      + (if kind.Dropped? && w.drain.Draining? && w.drain.uncounted then 1 else 0) == Sum(w.log, OfKind(kind))
  }

  /** Only shutdown cancels. */
  predicate NoneCancelled(w: World) {
    forall i :: 0 <= i < |w.workers| && w.workers[i].Recording? ==> w.workers[i].result.status != Cancelled
  }

  predicate TallyOk(w: World) { NoneCancelled(w) && forall kind: Kind :: Tallied(w, kind) }

  lemma TalliedStep(w: World, e: Event, kind: Kind)
    requires NoneCancelled(w) && Tallied(w, kind) && (w.core.shuttingDown <==> !w.drain.Idle?)
    ensures Tallied(Apply(w, e), kind)
  {
    hide NoneAsleep, AllExited, Find, StepWorker, StartShutdown, KindOf, RecordCancelled;
    var w' := Apply(w, e);
    if Enabled(w, e) {
      match e
      case Submit(_, wakes) =>
        if wakes < |w.workers| {
          SumUpdate(w.workers, wakes, Awake, Unrecorded(kind));
        }
      case Spurious(i) => SumUpdate(w.workers, i, Awake, Unrecorded(kind));
      case Step(i) => TalliedWorker(w, i, kind);
      case Finish(i, result) => TalliedFinish(w, i, result, kind);
      case Shutdown => TalliedShutdown(w, kind);
      case Cancel => TalliedCancel(w, kind);
      case _ =>
    }
  }

  lemma TalliedFinish(w: World, i: nat, result: FillResult, kind: Kind)
    requires Tallied(w, kind) && Enabled(w, Finish(i, result))
    ensures Tallied(Apply(w, Finish(i, result)), kind)
  {
    hide KindOf;
    SumUpdate(w.workers, i, Recording(w.workers[i].item, result), Unrecorded(kind));
    TalliedOne(w.log, Delivery(w.workers[i].item, result), kind);
  }

  lemma TalliedCancel(w: World, kind: Kind)
    requires Tallied(w, kind) && Enabled(w, Cancel)
    ensures Tallied(Apply(w, Cancel), kind)
  {
    if !w.drain.uncounted {
      TalliedOne(w.log, Delivery(w.drain.rest[0], FillResult(Cancelled, 0)), kind);
    }
  }

  lemma TalliedOne(log: seq<Delivery>, d: Delivery, kind: Kind)
    ensures Sum(log + [d], OfKind(kind)) == Sum(log, OfKind(kind)) + if KindOf(d.item, d.result) == kind then 1 else 0
  {
    SumAppend(log, [d], OfKind(kind));
    SumOne(d, OfKind(kind));
  }

  lemma TalliedWorker(w: World, i: nat, kind: Kind)
    requires NoneCancelled(w) && Tallied(w, kind) && Enabled(w, Step(i))
    ensures Tallied(StepWorker(w, i), kind)
  {
    SumUpdate(w.workers, i, StepWorker(w, i).workers[i], Unrecorded(kind));
  }

  lemma TalliedShutdown(w: World, kind: Kind)
    requires Tallied(w, kind) && (w.core.shuttingDown <==> !w.drain.Idle?)
    ensures Tallied(StartShutdown(w), kind)
  {
    SumSame(w.workers, WakeAll(w.workers), Unrecorded(kind));
  }

  lemma NoneCancelledStep(w: World, e: Event)
    requires NoneCancelled(w)
    ensures NoneCancelled(Apply(w, e))
  {
    hide NoneAsleep, AllExited, Find;
  }

  // ----- runs -----

  ghost predicate WorldOk(w: World) { FifoOk(w) && WakeOk(w) && OnceOk(w) && StatsOk(w) && TallyOk(w) }

  lemma CreateOk(capacity: nat, maxSources: nat, workers: nat)
    ensures WorldOk(Create(capacity, maxSources, workers))
  {
    var w := Create(capacity, maxSources, workers);
    SumBounds(w.workers, AwakeWeight);
    SumBounds(w.workers, BusyWeight);
    forall x ensures Placed(w, x) { SumBounds(w.workers, Owns(x)); }
    forall kind: Kind ensures Tallied(w, kind) { SumBounds(w.workers, Unrecorded(kind)); }
  }

  lemma EventOk(w: World, e: Event)
    requires WorldOk(w)
    ensures WorldOk(Apply(w, e))
  {
    hide FifoOk, WakeOk, StatsOk, Placed, Tallied, NoneCancelled, Apply;
    FifoStep(w, e);
    WakeStep(w, e);
    StatsStep(w, e);
    DrainKnown(w);
    forall x ensures Placed(Apply(w, e), x) { PlacedStep(w, e, x); }
    NoneCancelledStep(w, e);
    forall kind: Kind ensures Tallied(Apply(w, e), kind) { TalliedStep(w, e, kind); }
  }

  lemma {:induction false} RunOk(w: World, es: seq<Event>, k: nat)
    requires WorldOk(w) && k <= |es|
    ensures WorldOk(After(w, es, k))
  {
    hide WorldOk, Apply;
    if k > 0 {
      RunOk(w, es, k - 1);
      EventOk(After(w, es, k - 1), es[k - 1]);
    }
  }

  /** A sequence without repetitions holds a thing once or not at all. */
  lemma {:induction false} SumDistinct(items: seq<WorkItem>, x: WorkItem)
    requires forall i, j :: 0 <= i < j < |items| ==> items[i].call != items[j].call
    ensures Sum(items, Is(x)) == if x in items then 1 else 0
  {
    if items != [] {
      var tail := items[1..];
      forall i, j | 0 <= i < j < |tail| ensures tail[i].call != tail[j].call {
        assert items[i + 1].call != items[j + 1].call;
      }
      forall j | 0 <= j < |tail| ensures tail[j] != items[0] {
        assert items[0].call != items[j + 1].call;
      }
      SumDistinct(tail, x);
    }
  }

  /** In every reachable state: a request is delivered at most once, and only if it was accepted; an
      accepted one is queued, or with one worker, or with shutdown, or delivered, exactly one of these. */
  lemma DeliveredOnce(w: World, x: WorkItem)
    requires WorldOk(w)
    ensures Sum(w.log, Delivers(x)) <= 1
    ensures Sum(w.core.queue, Is(x)) + Sum(w.workers, Owns(x)) + Sum(Rest(w), Is(x)) + Sum(w.log, Delivers(x))
            == if x in w.accepted then 1 else 0
  {
    hide WakeOk, StatsOk, TallyOk;
    assert Placed(w, x);
    SumAppend(w.taken, w.core.queue, Is(x));
    SumDistinct(w.accepted, x);
    SumBounds(w.workers, Owns(x));
    SumBounds(Rest(w), Is(x));
    SumBounds(w.core.queue, Is(x));
  }

  /** A request refused at submit is never delivered, whatever happens afterwards. */
  lemma {:induction false} RefusedNever(w: World, request: FillRequest, wakes: nat, es: seq<Event>, k: nat)
    requires WorldOk(w) && !Accepts(w.core) && Enabled(w, Submit(request, wakes)) && k <= |es|
    ensures var w' := After(Apply(w, Submit(request, wakes)), es, k);
      && w'.core.calls > w.core.calls
      && (forall i :: 0 <= i < |w'.accepted| ==> w'.accepted[i].call != w.core.calls)
      && (forall x: WorkItem :: x.call == w.core.calls ==> Sum(w'.log, Delivers(x)) <= 0)
  {
    hide WorldOk, Apply, Enabled;
    var w1 := Apply(w, Submit(request, wakes));
    RefusedNow(w, request, wakes);
    EventOk(w, Submit(request, wakes));
    RunOk(w1, es, k);
    var w' := After(w1, es, k);
    if k > 0 {
      RefusedNever(w, request, wakes, es, k - 1);
      AcceptedCall(After(w1, es, k - 1), es[k - 1]);
    }
    forall x: WorkItem | x.call == w.core.calls ensures Sum(w'.log, Delivers(x)) <= 0 {
      DeliveredOnce(w', x);
      SumBounds(w'.workers, Owns(x));
      SumBounds(Rest(w'), Is(x));
      SumBounds(w'.core.queue, Is(x));
    }
  }

  lemma RefusedNow(w: World, request: FillRequest, wakes: nat)
    requires WorldOk(w) && !Accepts(w.core) && Enabled(w, Submit(request, wakes))
    ensures var w1 := Apply(w, Submit(request, wakes));
      && w1.core.calls > w.core.calls
      && forall i :: 0 <= i < |w1.accepted| ==> w1.accepted[i].call != w.core.calls
  {
    hide WakeOk, StatsOk, OnceOk, TallyOk;
  }

  lemma AcceptedCall(w: World, e: Event)
    ensures var w' := Apply(w, e);
      && w'.core.calls >= w.core.calls
      && |w'.accepted| >= |w.accepted| && w'.accepted[..|w.accepted|] == w.accepted
      && forall i :: |w.accepted| <= i < |w'.accepted| ==> w'.accepted[i].call == w.core.calls
  {
  }

  // ----- shutdown ends -----

  function LeftWeight(x: Worker): int {
    match x
    case Exited => 0
    case Awake => 1
    case Recording(_, _) => 2
    case Performing(_) => 3
    case Asleep => 4
  }

  /** What a shutdown that has begun still waits for. */
  function Left(w: World): int {
    Sum(w.workers, LeftWeight) +
    if w.drain.Draining? then 2 * |w.drain.rest| + (if w.drain.uncounted then 1 else 0) + 1 else 0
  }

  /** The steps that are the backend's own, as opposed to its callers'. */
  predicate Own(e: Event) { !e.Register? && !e.Submit? && !e.Shutdown? && !e.Spurious? }

  /** Once shutdown has begun, every step of a worker or of shutdown brings its end closer, and nothing a
      caller does puts it off. */
  lemma ShutdownShrinks(w: World, e: Event)
    requires WakeOk(w) && w.core.shuttingDown && Enabled(w, e)
    ensures Apply(w, e).core.shuttingDown
    ensures if Own(e) then Left(Apply(w, e)) < Left(w) else Left(Apply(w, e)) == Left(w)
  {
    var w' := Apply(w, e);
    match e
    case Step(i) => SumUpdate(w.workers, i, w'.workers[i], LeftWeight);
    case Finish(i, result) => SumUpdate(w.workers, i, w'.workers[i], LeftWeight);
    case _ =>
  }

  /** Until it has returned there is such a step to take; shutdown never waits for itself. */
  lemma ShutdownMoves(w: World) returns (e: Event)
    requires WakeOk(w) && w.core.shuttingDown && !w.drain.Returned?
    ensures Own(e) && Enabled(w, e)
  {
    if w.drain.uncounted || w.drain.rest != [] {
      e := Cancel;
    } else if AllExited(w.workers) {
      e := Join;
    } else {
      var i :| 0 <= i < |w.workers| && !w.workers[i].Exited?;
      e := if w.workers[i].Performing? then Finish(i, FillResult(Ok, 0)) else Step(i);
    }
  }

  /** Workers that have all returned hold nothing. */
  lemma AllExitedHold(workers: seq<Worker>, x: WorkItem, kind: Kind)
    requires AllExited(workers)
    ensures Sum(workers, BusyWeight) == 0 && Sum(workers, Owns(x)) == 0 && Sum(workers, Unrecorded(kind)) == 0
  {
    SumBounds(workers, BusyWeight);
    SumBounds(workers, Owns(x));
    SumBounds(workers, Unrecorded(kind));
  }

  lemma ReturnedIdle(w: World)
    requires WakeOk(w) && w.drain.Returned?
    ensures AllExited(w.workers) && w.core.queue == [] && !Accepts(w.core) && Rest(w) == []
  {
  }

  lemma ReturnedForever(w: World, e: Event)
    requires WakeOk(w) && w.drain.Returned?
    ensures Apply(w, e).drain.Returned? && Apply(w, e).log == w.log
  {
    hide Find;
    ReturnedIdle(w);
    if e.Finish? && e.worker < |w.workers| {
      assert w.workers[e.worker].Exited?;
    }
  }

  lemma ReturnedDelivered(w: World, x: WorkItem)
    requires WorldOk(w) && w.drain.Returned?
    ensures Sum(w.log, Delivers(x)) == if x in w.accepted then 1 else 0
  {
    hide WorldOk, WakeOk;
    WakesOk(w);
    ReturnedIdle(w);
    DeliveredOnce(w, x);
    AllExitedHold(w.workers, x, Full);
  }

  lemma WakesOk(w: World)
    requires WorldOk(w)
    ensures WakeOk(w) && StatsOk(w) && TallyOk(w)
  {
  }

  lemma ReturnedTallied(w: World, kind: Kind)
    requires WakeOk(w) && Tallied(w, kind) && w.drain.Returned?
    ensures Statistic(w.core.stats, kind) == Sum(w.log, OfKind(kind))
  {
    hide WakeOk, Statistic;
    ReturnedIdle(w);
    AllExitedHold(w.workers, WorkItem(0, FillRequest(0, 0, 0, 0, 0, Token(0, 0)), None), kind);
  }

  lemma ReturnedCounts(w: World)
    requires WakeOk(w) && StatsOk(w) && w.drain.Returned?
    ensures w.core.stats.inFlight == 0
    ensures w.core.stats.accepted
        == w.core.stats.completedOk + w.core.stats.shortReads + w.core.stats.errors + w.core.stats.cancelled
  {
    hide WakeOk;
    ReturnedIdle(w);
    SumBounds(w.workers, BusyWeight);
  }

  /** What the first shutdown call guarantees when it returns, and forever after: nothing is queued or in
      flight, every request ever accepted has been delivered exactly once, and each statistic is the
      number of deliveries of its kind. */
  lemma ShutdownGuarantee(w: World)
    requires WorldOk(w) && w.drain.Returned?
    ensures w.core.queue == [] && w.core.stats.inFlight == 0
    ensures forall x :: Sum(w.log, Delivers(x)) == if x in w.accepted then 1 else 0
    ensures w.core.stats.accepted
        == w.core.stats.completedOk + w.core.stats.shortReads + w.core.stats.errors + w.core.stats.cancelled
    ensures forall kind: Kind :: Statistic(w.core.stats, kind) == Sum(w.log, OfKind(kind))
    ensures !Accepts(w.core) && forall e :: Apply(w, e).drain.Returned? && Apply(w, e).log == w.log
  {
    hide WorldOk, WakeOk, StatsOk, Tallied, NoneCancelled, Apply, Accepts, Statistic;
    WakesOk(w);
    ReturnedIdle(w);
    ReturnedCounts(w);
    forall x ensures Sum(w.log, Delivers(x)) == if x in w.accepted then 1 else 0 { ReturnedDelivered(w, x); }
    forall kind: Kind ensures Statistic(w.core.stats, kind) == Sum(w.log, OfKind(kind)) { ReturnedTallied(w, kind); }
    forall e ensures Apply(w, e).drain.Returned? && Apply(w, e).log == w.log { ReturnedForever(w, e); }
  }
}
