/** What a SlotPool over LocalFileBackend promises, with all its workers at once: the pool's theorems hold of
    every run; what callers read is the file's; and shutdown settles every fill. */
module StackTheorems {
  import opened Transfer
  import opened Memory
  import opened PoolState
  import opened Service
  import opened DirectRead
  import opened Fills
  import opened Stack
  import Jobs
  import B = BackendRuns
  import M = PoolModel
  import I = PoolInvariant
  import P = PoolRuns
  import Q = PoolProgress
  import T = PoolTheorems

  // ----- the beginning -----

  /** A new pool over a new backend of so many workers. */
  function Created(issuer: Issuer, file: seq<byte>, cfg: Config, mem: seq<byte>, source: seq<byte>, capacity: nat,
                   sources: nat, workers: nat): (s: Stack)
    requires cfg.Valid()
    ensures Sized(s)
  {
    Stack(issuer, file, P.Create(cfg, mem, source),
          Desk(B.Create(capacity, sources, workers), seq(workers, _ => Ledger([], []))))
  }

  lemma CreatedOk(issuer: Issuer, file: seq<byte>, cfg: Config, mem: seq<byte>, source: seq<byte>, capacity: nat,
                  sources: nat, workers: nat)
    requires T.Fits(cfg, mem, source) && file <= source
    ensures var s := Created(issuer, file, cfg, mem, source, capacity, sources, workers);
      Sized(s) && StackOk(s) && InFile(s)
  {
    hide I.Inv, B.WorldOk, P.WorldOk;
    P.CreateOk(cfg, mem, source);
    B.CreateOk(capacity, sources, workers);
  }

  // ----- what callers read -----

  /** The chunk of every ready slot lies in the real file. */
  predicate InFile(s: Stack) {
    forall i :: 0 <= i < |s.pool.pool.slots| && s.pool.pool.slots[i].state.Ready? ==>
        ChunkInFile(s, s.pool.pool.slots[i].chunk)
  }

  predicate ChunkInFile(s: Stack, chunk: nat) {
    chunk * s.pool.pool.cfg.slotBytes + ChunkLength(s.pool.pool.cfg, chunk) <= |s.file|
  }

  /** A worker's delivery publishes its chunk exactly when the whole of it was read, which needs it to lie
      inside the real file, whatever size the pool was created with; otherwise the fill fails, as a short read
      or with the device's error. */
  lemma PublishedIsInFile(s: Stack, e: Event)
    requires Sized(s) && StackOk(s) && e.Finish? && Enabled(s, e)
    ensures var x := s.desk.backend.workers[e.worker].item;
      var slot := x.request.token.index;
      && slot < |s.pool.pool.slots| == |Apply(s, e).pool.pool.slots|
      && var now := Apply(s, e).pool.pool.slots[slot];
         && now.chunk == s.pool.pool.slots[slot].chunk && s.pool.pool.slots[slot].state.Filling?
         && (now.state.Ready? <==> e.result.status == Ok && ChunkInFile(s, now.chunk))
         && (e.result.status == Ok && !ChunkInFile(s, now.chunk) ==>
              ClassifyFill(e.result, x.request.length) == ShortRead)
  {
    hide P.WorldOk, DeskOk, Reported, M.OnComplete, Move;
    var x := s.desk.backend.workers[e.worker].item;
    var t := x.request.token;
    WorkingOn(s, e.worker);
    RequestFits(s.pool, t);
    FillBounds(s.pool.pool.cfg, t.index, t.generation, s.pool.pool.slots[t.index].chunk);
    P.OnCompleteEnds(s.pool.pool, t, e.result);
    ResultFits(s, e);
  }

  /** What a worker's result says of the file. */
  lemma ResultFits(s: Stack, e: Event)
    requires Sized(s) && StackOk(s) && e.Finish? && Enabled(s, e)
    ensures var r := s.desk.backend.workers[e.worker].item.request;
      e.result.status == Ok ==> e.result.bytes == Min(r.length, Available(s.file, r.offset))
  {
    hide P.WorldOk, B.WorldOk, Matched, Lays;
  }

  lemma InFileStep(s: Stack, e: Event)
    requires Sized(s) && StackOk(s) && InFile(s)
    ensures InFile(Apply(s, e))
  {
    hide StackOk, P.WorldOk, Apply, Seen, Enabled;
    PoolOk(s);
    StackStep(s, e);
    var s' := Apply(s, e);
    match Seen(s, e)
    case None =>
    case Some(pe) =>
      if Q.Genuine(s.pool, pe) {
        Q.GenuineEnds(s.pool, pe);
        GenuineIsDelivery(s, e);
        if e.Finish? {
          PublishedIsInFile(s, e);
        } else {
          CancelledIsNotReady(s, e);
        }
      } else {
        Q.EventSteady(s.pool, pe);
        SteadyInFile(s, s');
      }
      ConfigKept(s.pool, pe);
  }

  lemma ConfigKept(w: P.World, e: P.Event)
    requires M.Shaped(w.pool)
    ensures P.Apply(w, e).pool.cfg == w.pool.cfg
  {
  }

  lemma SteadyInFile(s: Stack, s': Stack)
    requires InFile(s) && Q.FillsSteady(s.pool.pool, s'.pool.pool) && s'.file == s.file
    requires s'.pool.pool.cfg == s.pool.pool.cfg
    ensures InFile(s')
  {
    forall i | 0 <= i < |s'.pool.pool.slots| && s'.pool.pool.slots[i].state.Ready?
      ensures ChunkInFile(s', s'.pool.pool.slots[i].chunk) {
      assert Q.FillSteady(s.pool.pool.slots[i], s'.pool.pool.slots[i]);
      assert ChunkInFile(s, s.pool.pool.slots[i].chunk);
    }
  }

  /** Only a worker or shutdown delivers what the pool is owed. */
  lemma GenuineIsDelivery(s: Stack, e: Event)
    requires Sized(s) && Seen(s, e).Some? && Seen(s, e).value.Deliver?
    ensures Enabled(s, e) && (e.Finish? || e.Cancel?)
    ensures e.Finish? ==> Seen(s, e).value == P.Deliver(s.desk.backend.workers[e.worker].item.request.token, e.result)
    ensures e.Cancel? ==> Seen(s, e).value.result == FillResult(Cancelled, 0)
  {
    hide P.Enabled, Reported, Submits;
  }

  lemma CancelledIsNotReady(s: Stack, e: Event)
    requires Sized(s) && StackOk(s) && e.Cancel? && Enabled(s, e)
    ensures var slot := s.desk.backend.drain.rest[0].request.token.index;
      Seen(s, e) == Some(P.Deliver(s.desk.backend.drain.rest[0].request.token, FillResult(Cancelled, 0)))
      && (slot < |Apply(s, e).pool.pool.slots| ==> !Apply(s, e).pool.pool.slots[slot].state.Ready?)
  {
    hide P.WorldOk, B.WorldOk, Move, M.OnComplete;
    var x := s.desk.backend.drain.rest[0];
    HeldRequest(s.issuer, s.desk.backend, s.pool.pool.requests, s.pool.delivered, x);
    OwnToken(s.issuer, s.desk.backend, s.pool.pool.requests, s.pool.delivered, x.request.token);
    RequestFits(s.pool, x.request.token);
    P.OnCompleteEnds(s.pool.pool, x.request.token, FillResult(Cancelled, 0));
  }

  lemma {:induction false} InFileRun(s: Stack, es: seq<Event>)
    requires Sized(s) && StackOk(s) && InFile(s)
    ensures StackOk(After(s, es)) && InFile(After(s, es)) && M.Shaped(s.pool.pool)
    ensures After(s, es).pool == P.Run(s.pool, SeenRun(s, es))
  {
    hide StackOk, InFile, Apply;
    StackPool(s);
    RunProjects(s, es);
    if es != [] {
      InFileRun(s, es[..|es| - 1]);
      InFileStep(After(s, es[..|es| - 1]), es[|es| - 1]);
    }
  }

  /** Whatever callers, workers and shutdown do: a lease shows the file's own bytes, all of them inside the real
      file, for as long as it is held. */
  lemma LeasedFromFile(issuer: Issuer, file: seq<byte>, cfg: Config, mem: seq<byte>, source: seq<byte>,
                       capacity: nat, sources: nat, workers: nat,
                       es: seq<Event>, more: seq<Event>, lease: Lease)
    requires T.Fits(cfg, mem, source) && file <= source
    requires var s := Created(issuer, file, cfg, mem, source, capacity, sources, workers);
      lease in After(s, es).pool.held && lease in After(After(s, es), more).pool.held
    ensures var s := After(Created(issuer, file, cfg, mem, source, capacity, sources, workers), es);
      && lease.source + lease.length <= |file|
      && T.Shown(s.pool, lease) == file[lease.source..lease.source + lease.length]
      && T.Shown(After(s, more).pool, lease) == T.Shown(s.pool, lease)
  {
    hide StackOk, InFile, T.Shown;
    var s0 := Created(issuer, file, cfg, mem, source, capacity, sources, workers);
    CreatedOk(issuer, file, cfg, mem, source, capacity, sources, workers);
    InFileRun(s0, es);
    InFileRun(After(s0, es), more);
    StaticRun(s0, es);
    StaticRun(After(s0, es), more);
    LeaseIsFile(After(s0, es), lease);
    LeaseIsFile(After(After(s0, es), more), lease);
  }

  lemma StaticRun(s: Stack, es: seq<Event>)
    requires Sized(s)
    ensures After(s, es).file == s.file
  {
  }

  lemma LeaseIsFile(s: Stack, lease: Lease)
    requires Sized(s) && StackOk(s) && InFile(s) && lease in s.pool.held
    ensures lease.source + lease.length <= |s.file|
    ensures T.Shown(s.pool, lease) == s.file[lease.source..lease.source + lease.length]
  {
    hide DeskOk, T.Shown, I.Inv, P.MemoryOk, P.OwedOk, P.PinsMatch;
    var i :| 0 <= i < |s.pool.held| && s.pool.held[i] == lease;
    T.ShownIsSource(s.pool, i);
    assert P.HeldOk(s.pool.pool, s.pool.held[i]);
    assert ChunkInFile(s, s.pool.pool.slots[lease.slot].chunk);
    assert s.pool.source[..|s.file|] == s.file;
  }

  // ----- shutdown settles every fill -----

  /** Once the first shutdown has returned, the pool is owed nothing: no fill is in flight, and no resolve and
      no ticket waits for one. */
  lemma ShutdownSettles(s: Stack)
    requires Sized(s) && StackOk(s) && s.desk.backend.drain.Returned?
    ensures s.pool.pool.inFlight == 0
    ensures forall t :: !P.Outstanding(s.pool, t)
    ensures forall r :: 0 <= r < |s.pool.pool.tickets| ==> s.pool.pool.tickets[r].pending == 0
  {
    hide P.WorldOk, B.WorldOk, Has;
    forall t ensures !P.Outstanding(s.pool, t) {
      if P.Outstanding(s.pool, t) {
        assert Undelivered(s.pool.pool.requests, s.pool.delivered, t) && HasToken(s.issuer, s.desk.backend, t);
        NothingHeld(s.desk.backend);
      }
    }
    T.Accounting(s.pool);
    forall t ensures t !in T.Owed(s.pool) { assert !P.Outstanding(s.pool, t); }
    assert T.Owed(s.pool) == {};
    P.WorldInv(s.pool);
    forall r | 0 <= r < |s.pool.pool.tickets| ensures s.pool.pool.tickets[r].pending == 0 {
      T.NothingLinked(s.pool.pool, r);
    }
  }

  // ----- a worker among the others -----

  lemma {:induction false} BetweenKeepsWorker(issuer: Issuer, d: Desk, mem: seq<byte>, es: seq<B.Event>, k: nat, i: nat)
    requires |d.ledgers| == |d.backend.workers| && k <= |es| && i < |d.ledgers|
    requires d.backend.workers[i].Performing? && Mine(issuer, d.backend.workers[i].item)
    ensures var d' := Between(issuer, d, mem, es, k);
      i < |d'.ledgers| && d'.backend.workers[i] == d.backend.workers[i] && d'.ledgers[i] == d.ledgers[i]
  {
    hide Move;
    if k > 0 {
      BetweenKeepsWorker(issuer, d, mem, es, k - 1, i);
      var before := Between(issuer, d, mem, es, k - 1);
      if Background(issuer, before.backend, es[k - 1]) {
        MoveKeepsWorker(before, mem, es[k - 1], i);
      }
    }
  }

  lemma {:induction false} FoldKeepsWorker(issuer: Issuer, d: Desk, mem: seq<byte>, j: Jobs.Job, turns: seq<Turn>,
                                           k: nat, i: nat)
    requires |d.ledgers| == |d.backend.workers| && Jobs.JobShaped(j) && k <= |j.segments| && i < |d.ledgers|
    requires d.backend.workers[i].Performing? && Mine(issuer, d.backend.workers[i].item)
    ensures var d' := Fold(issuer, d, mem, j, turns, k).0;
      i < |d'.ledgers| && d'.backend.workers[i] == d.backend.workers[i] && d'.ledgers[i] == d.ledgers[i]
  {
    hide Jobs.JobShaped, Jobs.Ask, Move, Between;
    if k > 0 {
      FoldKeepsWorker(issuer, d, mem, j, turns, k - 1, i);
      var (before, answers) := Fold(issuer, d, mem, j, turns, k - 1);
      var turn := if k - 1 < |turns| then turns[k - 1] else Turn([], 0);
      BetweenKeepsWorker(issuer, before, mem, turn.between, |turn.between|, i);
      var moved := Between(issuer, before, mem, turn.between, |turn.between|);
      var asked := Jobs.Ask(j, answers);
      if asked.Some? {
        Jobs.AskFits(j, answers);
        MoveKeepsWorker(moved, mem, B.Submit(FillOf(issuer, asked.value), Woken(moved.backend.workers, turn.wakes)), i);
      }
    }
  }

  /** What an event adds to what worker `i` has stored. */
  ghost function Adds(s: Stack, e: Event, i: nat): seq<Piece>
    requires Sized(s)
  {
    if e.Store? && e.worker == i && Enabled(s, e) then [e.piece] else []
  }

  /** Whatever else happens, a worker keeps its request and what it has stored, but for its own stores and its
      own delivery. */
  lemma WorkerStep(s: Stack, e: Event, i: nat)
    requires Sized(s) && Working(s, i) && !(e.Finish? && e.worker == i)
    ensures var s' := Apply(s, e);
      && Working(s', i) && s'.desk.backend.workers[i] == s.desk.backend.workers[i]
      && s'.desk.ledgers[i] == s.desk.ledgers[i].(pieces := s.desk.ledgers[i].pieces + Adds(s, e, i))
  {
    hide Move, Fold, P.Apply, P.Enabled, M.Prefetch, M.ResolveBegin, M.OnComplete, Reported, HintJob, TakeJob,
         Overwrite;
    assert s.desk.ledgers[i].pieces + [] == s.desk.ledgers[i].pieces;
    if Enabled(s, e) {
      match e
      case Prefetch(ranges, admission, turns) =>
        var j := HintJob(s.pool.pool, ranges, admission);
        if j.Some? {
          FoldKeepsWorker(s.issuer, s.desk, s.pool.mem, j.value, turns, |j.value.segments|, i);
        }
      case ResolveBegin(ranges, room, turns) =>
        var j := TakeJob(s.pool.pool, ranges, room);
        if j.Some? {
          FoldKeepsWorker(s.issuer, s.desk, s.pool.mem, j.value, turns, |j.value.segments|, i);
        }
      case Backend(be) => MoveKeepsWorker(s.desk, s.pool.mem, be, i);
      case Finish(k, result) => MoveKeepsWorker(s.desk, s.pool.mem, B.Finish(k, result), i);
      case Cancel => MoveKeepsWorker(s.desk, s.pool.mem, B.Cancel, i);
      case _ =>
    }
  }

  /** The pieces worker `i` stores in a run. */
  ghost function Stored(s: Stack, es: seq<Event>, i: nat): seq<Piece>
    requires Sized(s)
  {
    if es == [] then [] else Stored(s, es[..|es| - 1], i) + Adds(After(s, es[..|es| - 1]), es[|es| - 1], i)
  }

  lemma {:induction false} WorkerRun(s: Stack, es: seq<Event>, i: nat)
    requires Sized(s) && Working(s, i) && forall result :: Finish(i, result) !in es
    ensures var s' := After(s, es);
      && Working(s', i) && s'.desk.backend.workers[i] == s.desk.backend.workers[i]
      && s'.desk.ledgers[i] == s.desk.ledgers[i].(pieces := s.desk.ledgers[i].pieces + Stored(s, es, i))
  {
    hide Apply, Adds;
    assert s.desk.ledgers[i].pieces + [] == s.desk.ledgers[i].pieces;
    if es != [] {
      var last := |es| - 1;
      assert es[last] in es;
      WorkerRun(s, es[..last], i);
      WorkerStep(After(s, es[..last]), es[last], i);
    }
  }

  /** A worker that has just taken a request, and in any run stores what Perform stores for it, may then deliver
      what Perform reports; and that is an honest delivery for the pool, whatever the pool's callers, the
      other workers and shutdown have done between its stores. */
  lemma PerformDelivers(s: Stack, es: seq<Event>, i: nat, result: FillResult)
    requires Sized(s) && StackOk(s) && Working(s, i) && s.desk.ledgers[i].pieces == []
    requires forall other :: Finish(i, other) !in es
    requires var x := s.desk.backend.workers[i].item;
      Reported(s.file, x, s.issuer.base + x.request.destination, Stored(s, es, i), result)
    ensures var s' := After(s, es);
      && StackOk(s') && Enabled(s', Finish(i, result))
      && P.Enabled(s'.pool, P.Deliver(s.desk.backend.workers[i].item.request.token, result))
      && Apply(s', Finish(i, result)).pool
           == P.Apply(s'.pool, P.Deliver(s.desk.backend.workers[i].item.request.token, result))
  {
    hide StackOk, Reported, P.Apply, P.Enabled, Stored, After, Apply, Seen;
    WorkerRun(s, es, i);
    assert [] + Stored(s, es, i) == Stored(s, es, i);
    RunProjects(s, es);
    StackStep(After(s, es), Finish(i, result));
    FinishSeen(After(s, es), i, result);
  }

  lemma FinishSeen(s: Stack, i: nat, result: FillResult)
    requires Sized(s) && Enabled(s, Finish(i, result))
    ensures Seen(s, Finish(i, result)) == Some(P.Deliver(s.desk.backend.workers[i].item.request.token, result))
  {
  }

  /** Only a write of its own request changes the bytes of a destination that the pool is owed: not another
      request's, and no section of the pool. */
  lemma OthersKeepDestination(w: P.World, t: Token, e: P.Event)
    requires P.WorldOk(w) && M.Shaped(w.pool) && P.Outstanding(w, t) && !(e.Write? && e.token == t)
    ensures var r := w.pool.requests[t];
      |P.Apply(w, e).mem| == |w.mem|
          && Part(P.Apply(w, e).mem, r.destination, r.length) == Part(w.mem, r.destination, r.length)
  {
    hide P.WorldOk, Overwrite, M.Prefetch, M.DiscardTicket, M.ResolveBegin, M.ResolveFinish, M.TryResolve,
         M.WontNeed, M.OnComplete, M.Unpin, P.Honest;
    if e.Write? && P.Enabled(w, e) {
      var a, b := w.pool.requests[t], w.pool.requests[e.token];
      WorldSpaced(w);
      assert Undelivered(w.pool.requests, w.delivered, t) && Undelivered(w.pool.requests, w.delivered, e.token);
      assert Separate(a, b);
      OverwriteApart(w.mem, b.destination, e.bytes, a.destination, a.destination + a.length);
    }
  }
}
