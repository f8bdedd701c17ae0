/** Which file a worker reads for a pool or a transfer set, in every joint run: the one registered under the
    issuer's source. So a request is readable in whatever order callers, workers and shutdown take their steps,
    and a device that does not fail serves it whole. */
module StackSources {
  import opened Transfer
  import opened Memory
  import opened PoolState
  import opened Service
  import opened DirectRead
  import opened Registrations
  import BackendModel
  import Fills
  import Jobs
  import Stack
  import StackTheorems
  import TransferStack
  import B = BackendRuns
  import M = PoolModel
  import P = PoolRuns

  // ----- the backend's side of a joint run is a run of the backend -----

  lemma {:induction false} AfterBoth(b: B.World, es: seq<B.Event>, more: seq<B.Event>, k: nat)
    requires k <= |more|
    ensures B.After(b, es + more, |es| + k) == B.After(B.After(b, es, |es|), more, k)
  {
    hide B.Apply;
    if k == 0 {
      PrefixRun(b, es, more, |es|);
    } else {
      AfterBoth(b, es, more, k - 1);
    }
  }

  lemma {:induction false} PrefixRun(b: B.World, es: seq<B.Event>, more: seq<B.Event>, k: nat)
    requires k <= |es|
    ensures B.After(b, es + more, k) == B.After(b, es, k)
  {
    hide B.Apply;
    if k > 0 {
      PrefixRun(b, es, more, k - 1);
    }
  }

  lemma OneEvent(b: B.World, e: B.Event)
    ensures B.After(b, [e], 1) == B.Apply(b, e)
  {
    hide B.Apply;
    assert B.After(b, [e], 0) == b;
  }

  lemma MoveIsEvent(d: Desk, mem: seq<byte>, e: B.Event)
    requires |d.ledgers| == |d.backend.workers|
    ensures Move(d, mem, e).backend == B.Apply(d.backend, e)
  {
  }

  lemma {:induction false} BetweenRuns(issuer: Issuer, d: Desk, mem: seq<byte>, es: seq<B.Event>, k: nat)
    returns (bs: seq<B.Event>)
    requires |d.ledgers| == |d.backend.workers| && k <= |es|
    ensures B.After(d.backend, bs, |bs|) == Stack.Between(issuer, d, mem, es, k).backend
  {
    hide Move, Background;
    bs := [];
    if k > 0 {
      bs := BetweenRuns(issuer, d, mem, es, k - 1);
      var before := Stack.Between(issuer, d, mem, es, k - 1);
      if Background(issuer, before.backend, es[k - 1]) {
        MoveIsEvent(before, mem, es[k - 1]);
        AfterBoth(d.backend, bs, [es[k - 1]], 1);
        OneEvent(before.backend, es[k - 1]);
        bs := bs + [es[k - 1]];
      }
    }
  }

  lemma {:induction false} FoldRuns(issuer: Issuer, d: Desk, mem: seq<byte>, j: Jobs.Job, turns: seq<Stack.Turn>,
                                    k: nat)
    returns (bs: seq<B.Event>)
    requires |d.ledgers| == |d.backend.workers| && Jobs.JobShaped(j) && k <= |j.segments|
    ensures B.After(d.backend, bs, |bs|) == Stack.Fold(issuer, d, mem, j, turns, k).0.backend
  {
    hide Jobs.JobShaped, Jobs.Ask, Move, Stack.Between, SubmitFill, BackendModel.Accepts;
    bs := [];
    if k > 0 {
      bs := FoldRuns(issuer, d, mem, j, turns, k - 1);
      var (before, answers) := Stack.Fold(issuer, d, mem, j, turns, k - 1);
      var turn := if k - 1 < |turns| then turns[k - 1] else Stack.Turn([], 0);
      var more := BetweenRuns(issuer, before, mem, turn.between, |turn.between|);
      var moved := Stack.Between(issuer, before, mem, turn.between, |turn.between|);
      AfterBoth(d.backend, bs, more, |more|);
      bs := bs + more;
      var asked := Jobs.Ask(j, answers);
      if asked.Some? {
        Jobs.AskFits(j, answers);
        bs := SubmitRuns(d.backend, bs, moved, mem, issuer, asked.value, turn.wakes);
      }
    }
  }

  lemma SubmitRuns(b: B.World, bs: seq<B.Event>, d: Desk, mem: seq<byte>, issuer: Issuer, r: Request, wakes: nat)
    returns (more: seq<B.Event>)
    requires |d.ledgers| == |d.backend.workers| && Wide(r) && B.After(b, bs, |bs|) == d.backend
    ensures B.After(b, more, |more|) == SubmitFill(d, mem, issuer, r, wakes).backend
  {
    hide Move;
    var e := B.Submit(FillOf(issuer, r), Woken(d.backend.workers, wakes));
    MoveIsEvent(d, mem, e);
    AfterBoth(b, bs, [e], 1);
    OneEvent(d.backend, e);
    more := bs + [e];
  }

  lemma StepRuns(s: Stack.Stack, e: Stack.Event) returns (bs: seq<B.Event>)
    requires Stack.Sized(s)
    ensures B.After(s.desk.backend, bs, |bs|) == Stack.Apply(s, e).desk.backend
  {
    hide Move, Stack.Fold, Stack.HintJob, Stack.TakeJob, P.Apply, P.Enabled, M.OnComplete, M.Prefetch, M.ResolveBegin,
         Reported, Overwrite, Background;
    bs := [];
    if Stack.Enabled(s, e) {
      match e
      case Prefetch(ranges, admission, turns) =>
        var j := Stack.HintJob(s.pool.pool, ranges, admission);
        if j.Some? {
          bs := FoldRuns(s.issuer, s.desk, s.pool.mem, j.value, turns, |j.value.segments|);
        }
      case ResolveBegin(ranges, room, turns) =>
        var j := Stack.TakeJob(s.pool.pool, ranges, room);
        if j.Some? {
          bs := FoldRuns(s.issuer, s.desk, s.pool.mem, j.value, turns, |j.value.segments|);
        }
      case Backend(be) =>
        bs := [be];
        MoveIsEvent(s.desk, s.pool.mem, be);
        OneEvent(s.desk.backend, be);
      case Finish(i, result) =>
        bs := [B.Finish(i, result)];
        MoveIsEvent(s.desk, s.pool.mem, bs[0]);
        OneEvent(s.desk.backend, bs[0]);
      case Cancel =>
        bs := [B.Cancel];
        MoveIsEvent(s.desk, s.pool.mem, bs[0]);
        OneEvent(s.desk.backend, bs[0]);
      case _ =>
    }
  }

  /** Every joint run is, for the backend, a run of BackendRuns. */
  lemma {:induction false} BackendProjects(s: Stack.Stack, es: seq<Stack.Event>) returns (bs: seq<B.Event>)
    requires Stack.Sized(s)
    ensures B.After(s.desk.backend, bs, |bs|) == Stack.After(s, es).desk.backend
  {
    hide Stack.Apply, B.Apply;
    bs := [];
    if es != [] {
      var last := |es| - 1;
      bs := BackendProjects(s, es[..last]);
      var more := StepRuns(Stack.After(s, es[..last]), es[last]);
      AfterBoth(s.desk.backend, bs, more, |more|);
      bs := bs + more;
    }
  }

  /** So an item that is held in a joint run was queued by one submit call, with the source that had been
      registered under its id by then. */
  lemma HeldHasSource(issuer: Issuer, file: seq<byte>, cfg: Config, mem: seq<byte>, source: seq<byte>,
                      capacity: nat, sources: nat, workers: nat, es: seq<Stack.Event>, x: BackendModel.WorkItem)
    returns (bs: seq<B.Event>, j: nat)
    requires cfg.Valid()
    requires Has(Stack.After(StackTheorems.Created(issuer, file, cfg, mem, source, capacity, sources, workers),
                             es).desk.backend, x)
    ensures j < |bs| && QueuedAt(Registrations.Start(capacity, sources, workers), bs, j, x)
  {
    hide Stack.After, QueuedAt, B.After;
    bs := BackendProjects(StackTheorems.Created(issuer, file, cfg, mem, source, capacity, sources, workers), es);
    HeldWasQueued(capacity, sources, workers, bs, |bs|, x);
    j :| j < |bs| && QueuedAt(Registrations.Start(capacity, sources, workers), bs, j, x);
  }

  // ----- an issuer whose source is registered -----

  /** `source` is registered under the issuer's id, and every request of his that the backend holds reads it. */
  ghost predicate Known(issuer: Issuer, b: B.World, source: BackendModel.Source) {
    && B.WakeOk(b) && Distinct(b.core.sources) && source in b.core.sources && source.id == issuer.source
    && forall x :: Has(b, x) && Mine(issuer, x) && x.request.source == issuer.source ==> x.source == Some(source)
  }

  /** Every registration that returned ok makes it so for an issuer with no request yet. */
  lemma RegisterIsKnown(issuer: Issuer, b: B.World, source: BackendModel.Source)
    requires B.WakeOk(b) && Distinct(b.core.sources) && source.id == issuer.source
    requires BackendModel.Register(b.core, source).1 == Ok
    requires forall x :: Has(b, x) ==> !Mine(issuer, x)
    ensures Known(issuer, B.Apply(b, B.Event.Register(source)), source)
  {
    hide B.WakeOk;
    B.WakeStep(b, B.Event.Register(source));
    RegisterAdds(b, source);
    forall x | Has(B.Apply(b, B.Event.Register(source)), x) ensures !Mine(issuer, x) {
      HasBefore(b, B.Event.Register(source), x);
    }
  }

  /** What is held after a step was held before it, or has just been queued. */
  lemma HasBefore(b: B.World, e: B.Event, x: BackendModel.WorkItem)
    requires B.WakeOk(b) && Has(B.Apply(b, e), x)
    ensures Has(b, x) || (e.Submit? && B.Enabled(b, e) && x == BackendModel.ItemFor(b.core, e.request))
  {
    hide B.StepWorker, B.StartShutdown, B.WakeOk, B.NoneAsleep, B.AllExited, BackendModel.Find;
    var b' := B.Apply(b, e);
    if B.Enabled(b, e) {
      match e
      case Step(i) => StepHolds(b, i, x);
      case Shutdown => ShutdownHolds(b, x);
      case Submit(request, wakes) => SubmitHolds(b, request, wakes, x);
      case Cancel =>
        if !b.drain.uncounted {
          assert b.drain.rest == [b.drain.rest[0]] + b'.drain.rest;
        }
        SameWorkersHold(b, b', x);
      case Finish(i, result) => SameOrFewer(b, b', x);
      case Spurious(i) => SameOrFewer(b, b', x);
      case _ => SameWorkersHold(b, b', x);
    }
  }

  lemma SameOrFewer(b: B.World, b': B.World, x: BackendModel.WorkItem)
    requires |b'.workers| == |b.workers| && b'.core == b.core && b'.drain == b.drain
    requires forall j :: 0 <= j < |b.workers| && b'.workers[j].Performing? ==> b'.workers[j] == b.workers[j]
    ensures Has(b', x) ==> Has(b, x)
  {
    forall j: nat | j < |b.workers| && PerformedBy(b', j, x) ensures PerformedBy(b, j, x) {}
  }

  /** Whatever the backend does, it stays so. */
  lemma KnownStep(issuer: Issuer, b: B.World, source: BackendModel.Source, e: B.Event)
    requires Known(issuer, b, source)
    ensures Known(issuer, B.Apply(b, e), source)
  {
    hide B.WakeOk, B.Apply, B.Enabled, Has, BackendModel.Find;
    B.WakeStep(b, e);
    if e.Register? {
      RegisterAdds(b, e.source);
    } else {
      OnlyRegisterMoves(b, e);
    }
    forall x | Has(B.Apply(b, e), x) && Mine(issuer, x) && x.request.source == issuer.source
      ensures x.source == Some(source) {
      HasBefore(b, e, x);
      FindDistinct(b.core.sources, source);
    }
  }

  lemma {:induction false} KnownAfter(issuer: Issuer, b: B.World, source: BackendModel.Source, es: seq<B.Event>,
                                      k: nat)
    requires Known(issuer, b, source) && k <= |es|
    ensures Known(issuer, B.After(b, es, k), source)
  {
    hide Known, B.Apply;
    if k > 0 {
      KnownAfter(issuer, b, source, es, k - 1);
      KnownStep(issuer, B.After(b, es, k - 1), source, es[k - 1]);
    }
  }

  // ----- what a pool's workers read -----

  lemma PoolKnown(s: Stack.Stack, source: BackendModel.Source, es: seq<Stack.Event>)
    requires Stack.Sized(s) && Known(s.issuer, s.desk.backend, source)
    ensures Known(s.issuer, Stack.After(s, es).desk.backend, source)
  {
    hide Stack.After, Known, B.After;
    var bs := BackendProjects(s, es);
    KnownAfter(s.issuer, s.desk.backend, source, bs, |bs|);
  }

  /** Slots and storage of the pool are aligned to the block, and its source is as long as the file. */
  predicate Aligned(s: Stack.Stack, source: BackendModel.Source) {
    s.issuer.base % BLOCK == 0 && s.pool.pool.cfg.slotBytes % BLOCK == 0 && source.size == s.pool.pool.cfg.sourceBytes
  }

  /** In every joint run after the registration, what a worker performs for the pool reads the registered file,
      and is readable: always in the buffered mode, in the uncached mode if the pool is aligned. */
  lemma WorkersRead(s: Stack.Stack, source: BackendModel.Source, es: seq<Stack.Event>, i: nat)
    requires Stack.Sized(s) && Stack.StackOk(s) && Known(s.issuer, s.desk.backend, source)
    requires Stack.Working(Stack.After(s, es), i)
    ensures var now := Stack.After(s, es);
      var x := now.desk.backend.workers[i].item;
      && x.source == Some(source)
      && (source.access.Buffered? || Aligned(now, source) ==> Reads(s.issuer, x))
  {
    hide Stack.StackOk, Stack.After, Known, Stack.Working, Reads, Aligned, P.WorldOk;
    Stack.RunProjects(s, es);
    PoolKnown(s, source, es);
    WorkerReads(Stack.After(s, es), source, i);
  }

  lemma WorkerReads(s: Stack.Stack, source: BackendModel.Source, i: nat)
    requires Stack.Sized(s) && Stack.StackOk(s) && Known(s.issuer, s.desk.backend, source) && Stack.Working(s, i)
    ensures var x := s.desk.backend.workers[i].item;
      && x.source == Some(source)
      && (source.access.Buffered? || Aligned(s, source) ==> Reads(s.issuer, x))
  {
    hide Stack.StackOk, Known, UncachedValid, P.WorldOk;
    var x := s.desk.backend.workers[i].item;
    Stack.WorkingOn(s, i);
    PerformsKnown(s.issuer, s.desk.backend, source, i);
    if Aligned(s, source) {
      Stack.PoolOk(s);
      Fills.OwedIsValid(s.pool, x.request.token, s.issuer.base);
    }
  }

  lemma PerformsKnown(issuer: Issuer, b: B.World, source: BackendModel.Source, i: nat)
    requires Known(issuer, b, source) && i < |b.workers| && b.workers[i].Performing?
    requires Mine(issuer, b.workers[i].item) && b.workers[i].item.request.source == issuer.source
    ensures b.workers[i].item.source == Some(source)
  {
    assert PerformedBy(b, i, b.workers[i].item);
  }

  // ----- what a transfer set's workers read -----

  lemma TransferStepRuns(s: TransferStack.Stack, e: TransferStack.Event) returns (bs: seq<B.Event>)
    requires TransferStack.Sized(s)
    ensures B.After(s.desk.backend, bs, |bs|) == TransferStack.Apply(s, e).desk.backend
  {
    hide Move, TransferStack.Ask, Reported, Overwrite, Background;
    bs := [];
    if TransferStack.Enabled(s, e) {
      match e
      case Submit(source, destination, wakes) =>
        var asked := TransferStack.Ask(s.issued.transfers, source, destination);
        if asked.Some? {
          bs := [B.Submit(FillOf(s.issuer, asked.value), Woken(s.desk.backend.workers, wakes))];
          MoveIsEvent(s.desk, s.issued.mem, bs[0]);
          OneEvent(s.desk.backend, bs[0]);
        }
      case Backend(be) =>
        bs := [be];
        MoveIsEvent(s.desk, s.issued.mem, be);
        OneEvent(s.desk.backend, be);
      case Finish(i, result) =>
        bs := [B.Finish(i, result)];
        MoveIsEvent(s.desk, s.issued.mem, bs[0]);
        OneEvent(s.desk.backend, bs[0]);
      case Cancel =>
        bs := [B.Cancel];
        MoveIsEvent(s.desk, s.issued.mem, bs[0]);
        OneEvent(s.desk.backend, bs[0]);
      case _ =>
    }
  }

  /** Every joint run of a transfer set is, for the backend, a run of BackendRuns. */
  lemma {:induction false} TransferBackendProjects(s: TransferStack.Stack, es: seq<TransferStack.Event>)
    returns (bs: seq<B.Event>)
    requires TransferStack.Sized(s)
    ensures B.After(s.desk.backend, bs, |bs|) == TransferStack.After(s, es).desk.backend
  {
    hide TransferStack.Apply, B.Apply;
    bs := [];
    if es != [] {
      var last := |es| - 1;
      bs := TransferBackendProjects(s, es[..last]);
      var more := TransferStepRuns(TransferStack.After(s, es[..last]), es[last]);
      AfterBoth(s.desk.backend, bs, more, |more|);
      bs := bs + more;
    }
  }

  /** In every joint run after the registration, what a worker performs for the set reads the registered file; in
      the buffered mode it always reads. */
  lemma TransferWorkersRead(s: TransferStack.Stack, source: BackendModel.Source, es: seq<TransferStack.Event>, i: nat)
    requires TransferStack.Sized(s) && TransferStack.StackOk(s) && Known(s.issuer, s.desk.backend, source)
    requires TransferStack.Working(TransferStack.After(s, es), i)
    ensures var x := TransferStack.After(s, es).desk.backend.workers[i].item;
      x.source == Some(source) && (source.access.Buffered? ==> Reads(s.issuer, x))
  {
    hide TransferStack.StackOk, TransferStack.After, Known, B.After;
    var now := TransferStack.After(s, es);
    TransferStack.RunProjects(s, es);
    var bs := TransferBackendProjects(s, es);
    KnownAfter(s.issuer, s.desk.backend, source, bs, |bs|);
    TransferStack.WorkingOn(now, i);
    PerformsKnown(now.issuer, now.desk.backend, source, i);
  }
}
