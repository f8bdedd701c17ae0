/** What the backend has left to do, in steps: every dequeue, delivery and recording lowers it by one, nothing but
    a submit raises it, and while it is not zero such a step can be taken. */
module BackendProgress {
  import opened Transfer
  import opened Sums
  import opened Memory
  import opened BackendRuns
  import opened DirectRead
  import opened Service

  /** A worker takes a request or records its delivery, or a worker or shutdown delivers. What is left out is
      going to sleep, waking and returning. */
  predicate Serves(b: World, e: Event) {
    && Enabled(b, e)
    && match e
       case Step(i) => b.workers[i].Recording? || b.core.queue != []
       case Finish(_, _) => true
       case Cancel => true
       case _ => false
  }

  lemma ServesEnabled(b: World, e: Event)
    requires Serves(b, e)
    ensures Enabled(b, e)
  {
  }

  function LoadWeight(x: Worker): int { if x.Performing? then 2 else if x.Recording? then 1 else 0 }

  /** A queued request is to be taken, delivered and recorded; a drained one delivered and recorded. */
  function Load(b: World): int {
    3 * |b.core.queue| + Sum(b.workers, LoadWeight)
      + if b.drain.Draining? then 2 * |b.drain.rest| + (if b.drain.uncounted then 1 else 0) else 0
  }

  lemma ServeLowers(b: World, e: Event)
    requires Serves(b, e)
    ensures Load(Apply(b, e)) + 1 == Load(b)
  {
    hide AllExited, NoneAsleep;
    match e
    case Step(i) => SumUpdate(b.workers, i, Apply(b, e).workers[i], LoadWeight);
    case Finish(i, result) => SumUpdate(b.workers, i, Apply(b, e).workers[i], LoadWeight);
    case _ =>
  }

  /** Sleeping, waking for nothing, registering and joining leave it alone; a shutdown call only lowers it, since
      what was queued need not be taken any more. */
  lemma OthersKeep(b: World, e: Event)
    requires !(Enabled(b, e) && e.Submit?) && !Serves(b, e)
    ensures Load(Apply(b, e)) <= Load(b)
    ensures !e.Shutdown? ==> Load(Apply(b, e)) == Load(b)
  {
    hide AllExited, NoneAsleep, BackendModel.Find, Load, StartShutdown;
    match e
    case Step(i) => if Enabled(b, e) { StepKeeps(b, i); }
    case Spurious(i) => if Enabled(b, e) { SpuriousKeeps(b, i); }
    case Shutdown => ShutdownKeeps(b);
    case _ => SameLoad(b, Apply(b, e));
  }

  lemma SameLoad(b: World, b': World)
    requires b'.workers == b.workers && b'.core.queue == b.core.queue
    requires b'.drain == b.drain || (b.drain == Draining([], false) && b'.drain == Returned)
    ensures Load(b') == Load(b)
  {
  }

  lemma StepKeeps(b: World, i: nat)
    requires Enabled(b, Step(i)) && !Serves(b, Step(i))
    ensures Load(StepWorker(b, i)) == Load(b)
  {
    SumUpdate(b.workers, i, StepWorker(b, i).workers[i], LoadWeight);
  }

  lemma SpuriousKeeps(b: World, i: nat)
    requires Enabled(b, Spurious(i))
    ensures Load(Apply(b, Spurious(i))) == Load(b)
  {
    SumUpdate(b.workers, i, Awake, LoadWeight);
  }

  lemma ShutdownKeeps(b: World)
    ensures Load(StartShutdown(b)) <= Load(b)
  {
    SumSame(b.workers, WakeAll(b.workers), LoadWeight);
  }

  lemma LoadIsNatural(b: World)
    ensures 0 <= Load(b)
  {
    SumBounds(b.workers, LoadWeight);
  }

  /** While something is held it is positive. */
  lemma HeldIsLoad(b: World, x: BackendModel.WorkItem)
    requires Has(b, x)
    ensures 0 < Load(b)
  {
    SumBounds(b.workers, LoadWeight);
    if i: nat :| i < |b.workers| && PerformedBy(b, i, x) {
      assert LoadWeight(b.workers[i]) == 2;
    }
  }

  /** While it is positive, and there is a worker at all, such a step can be taken. */
  lemma LoadMoves(b: World) returns (e: Event)
    requires WakeOk(b) && 0 < |b.workers| && 0 < Load(b)
    ensures Serves(b, e)
    ensures e.Finish? ==> e.result == FillResult(IoError, 0)
  {
    SumBounds(b.workers, LoadWeight);
    if b.drain.Draining? && (b.drain.uncounted || b.drain.rest != []) {
      e := Cancel;
    } else if i: nat :| i < |b.workers| && 0 < LoadWeight(b.workers[i]) {
      e := if b.workers[i].Performing? then Finish(i, FillResult(IoError, 0)) else Step(i);
    } else {
      assert b.core.queue != [];
      NotStranded(b);
      assert LoadWeight(b.workers[0]) == 0;
      var i: nat :| i < |b.workers| && b.workers[i].Awake?;
      e := Step(i);
    }
  }

  /** A failure that a worker may report whatever it has stored: of the device, or, if it may not read, of the
      request. */
  function Failure(issuer: Issuer, x: BackendModel.WorkItem): FillResult {
    FillResult(if Reads(issuer, x) then IoError else InvalidArgument, 0)
  }

  lemma MayFail(issuer: Issuer, d: Desk, mem: seq<byte>, file: seq<byte>, i: nat)
    requires LedgersOk(issuer, d, mem) && i < |d.ledgers|
    requires d.backend.workers[i].Performing? && Mine(issuer, d.backend.workers[i].item)
    ensures var x := d.backend.workers[i].item;
      Reported(file, x, issuer.base + x.request.destination, d.ledgers[i].pieces, Failure(issuer, x))
  {
    hide Lays, Play;
    assert WorkerOk(issuer, d, mem, i);
    LaysNothing(d.ledgers[i].pieces, d.backend.workers[i].item.request.length);
  }

  /** If the step is a delivery by a worker, what the worker has stored allows it. */
  ghost predicate MayDeliver(issuer: Issuer, d: Desk, file: seq<byte>, e: Event)
    requires |d.ledgers| == |d.backend.workers| && Serves(d.backend, e)
  {
    e.Finish? && Mine(issuer, d.backend.workers[e.worker].item) ==>
      var x := d.backend.workers[e.worker].item;
      Reported(file, x, issuer.base + x.request.destination, d.ledgers[e.worker].pieces, e.result)
  }

  lemma DeskMoves(issuer: Issuer, d: Desk, mem: seq<byte>, file: seq<byte>) returns (e: Event)
    requires WorldOk(d.backend) && LedgersOk(issuer, d, mem) && 0 < |d.ledgers| && 0 < Load(d.backend)
    ensures Serves(d.backend, e) && MayDeliver(issuer, d, file, e)
  {
    hide WorldOk, LedgersOk, Load, Reported;
    DeskSize(issuer, d, mem);
    WorldWakes(d.backend);
    e := LoadMoves(d.backend);
    if e.Finish? && Mine(issuer, d.backend.workers[e.worker].item) {
      MayFail(issuer, d, mem, file, e.worker);
      e := Finish(e.worker, Failure(issuer, d.backend.workers[e.worker].item));
    }
  }

  lemma DeskSize(issuer: Issuer, d: Desk, mem: seq<byte>)
    requires LedgersOk(issuer, d, mem)
    ensures |d.ledgers| == |d.backend.workers|
  {
  }
}
