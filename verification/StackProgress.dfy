/** Fills get done: in every joint run of a pool and its backend, while the pool is owed a fill some step of a
    worker or of shutdown can be taken; each lowers by one what is left to do, callers that submit nothing cannot
    raise it; and once it is nothing, no fill is owed and every waiting resolve can return. */
module StackProgress {
  import opened Transfer
  import opened Memory
  import opened Service
  import opened DirectRead
  import opened Stack
  import opened BackendProgress
  import BackendModel
  import B = BackendRuns
  import M = PoolModel
  import P = PoolRuns
  import Q = PoolProgress

  // ----- what is left to do, and steps that lower it -----

  /** The backend's side of an event, if it is a step of the backend's alone or a delivery. */
  function BackendSide(e: Event): Option<B.Event> {
    match e
    case Backend(be) => Some(be)
    case Finish(i, result) => Some(B.Finish(i, result))
    case Cancel => Some(B.Cancel)
    case _ => None
  }

  /** A worker or shutdown takes, delivers or records a request. */
  ghost predicate Works(s: Stack, e: Event)
    requires Sized(s)
  {
    Enabled(s, e) && BackendSide(e).Some? && Serves(s.desk.backend, BackendSide(e).value)
  }

  function Left(s: Stack): int { Load(s.desk.backend) }

  /** The event brings the backend no new request. Spurious wakeups and shutdown calls are such events. */
  predicate Calm(e: Event) { !e.Prefetch? && !e.ResolveBegin? && !(e.Backend? && e.step.Submit?) }

  lemma SideEnabled(s: Stack, e: Event)
    requires Sized(s) && Enabled(s, e) && BackendSide(e).Some?
    ensures B.Enabled(s.desk.backend, BackendSide(e).value)
    ensures Apply(s, e).desk.backend == B.Apply(s.desk.backend, BackendSide(e).value)
  {
    hide Lays, B.Apply, M.OnComplete;
  }

  /** Each such step lowers what is left by one. */
  lemma WorkLowers(s: Stack, e: Event)
    requires Sized(s) && Works(s, e)
    ensures Left(Apply(s, e)) + 1 == Left(s)
  {
    hide B.Apply, Load, B.Enabled, Enabled, Apply, Serves;
    SideEnabled(s, e);
    ServeLowers(s.desk.backend, BackendSide(e).value);
  }

  /** Nothing else that brings no new work changes it, but for a shutdown call, which may lower it. */
  lemma CalmKeeps(s: Stack, e: Event)
    requires Sized(s) && Calm(e) && !Works(s, e)
    ensures Left(Apply(s, e)) <= Left(s)
    ensures e != Backend(B.Shutdown) ==> Left(Apply(s, e)) == Left(s)
  {
    hide B.Apply, Load, B.Enabled, Serves, Enabled, P.Apply, M.OnComplete, Overwrite;
    if Enabled(s, e) && BackendSide(e).Some? {
      SideEnabled(s, e);
      OthersKeep(s.desk.backend, BackendSide(e).value);
    }
  }

  // ----- there is always such a step -----

  /** A step of the backend's, as an event of the whole. */
  function Whole(s: Stack, be: B.Event): Event
    requires B.Enabled(s.desk.backend, be)
  {
    match be
    case Finish(i, result) => if Mine(s.issuer, s.desk.backend.workers[i].item) then Finish(i, result) else Backend(be)
    case Cancel =>
      var drain := s.desk.backend.drain;
      if drain.uncounted || !Mine(s.issuer, drain.rest[0]) then Backend(be) else Cancel
    case _ => Backend(be)
  }

  lemma WholeWorks(s: Stack, be: B.Event)
    requires Sized(s) && Serves(s.desk.backend, be) && MayDeliver(s.issuer, s.desk, s.file, be)
    ensures Works(s, Whole(s, be))
  {
    hide Reported;
  }

  /** While something is left, and there is a worker at all, a worker or shutdown can take a step. */
  lemma LeftMoves(s: Stack) returns (e: Event)
    requires Sized(s) && StackOk(s) && 0 < |s.desk.ledgers| && 0 < Left(s)
    ensures Works(s, e)
  {
    hide P.WorldOk, B.WorldOk, Matched, LedgersOk, Works, Serves, MayDeliver, Load;
    var be := DeskMoves(s.issuer, s.desk, s.pool.mem, s.file);
    ServesEnabled(s.desk.backend, be);
    WholeWorks(s, be);
    e := Whole(s, be);
  }

  /** A fill that the pool is owed is something left. */
  lemma OwedIsLeft(s: Stack, t: Token)
    requires StackOk(s) && P.Outstanding(s.pool, t)
    ensures 0 < Left(s)
  {
    hide P.WorldOk, B.WorldOk, Has, Load;
    assert Undelivered(s.pool.pool.requests, s.pool.delivered, t) && HasToken(s.issuer, s.desk.backend, t);
    var x :| Has(s.desk.backend, x) && Mine(s.issuer, x) && x.request.token == t;
    HeldIsLoad(s.desk.backend, x);
  }

  /** While the pool is owed a fill, a worker or shutdown can take a step. */
  lemma OwedMoves(s: Stack, t: Token) returns (e: Event)
    requires Sized(s) && StackOk(s) && P.Outstanding(s.pool, t) && 0 < |s.desk.ledgers|
    ensures Works(s, e)
  {
    hide StackOk, Works, Left;
    OwedIsLeft(s, t);
    e := LeftMoves(s);
  }

  /** A resolve that waits can return, or the backend can take a step, and each such step lowers what is left:
      resolve never waits for something that nobody is doing. */
  lemma WaitMoves(s: Stack, c: nat) returns (e: Event)
    requires Sized(s) && StackOk(s) && c < |s.pool.waiting| && s.pool.waiting[c] != [] && 0 < |s.desk.ledgers|
    ensures Enabled(s, e)
    ensures e == Caller(P.ResolveFinish(c)) || (Works(s, e) && Left(Apply(s, e)) + 1 == Left(s))
  {
    hide StackOk, P.WorldOk, Enabled, P.Enabled, Left;
    PoolOk(s);
    Q.WaitEnds(s.pool, c);
    if Q.Awaited(s.pool, c) == {} {
      e := Caller(P.ResolveFinish(c));
      FinishIsCaller(s, c);
    } else {
      var i :| i in Q.Awaited(s.pool, c);
      e := OwedMoves(s, Token(s.pool.waiting[c][i].slot, s.pool.waiting[c][i].generation));
      WorkLowers(s, e);
    }
  }

  lemma FinishIsCaller(s: Stack, c: nat)
    requires Sized(s) && P.Enabled(s.pool, P.ResolveFinish(c))
    ensures Enabled(s, Caller(P.ResolveFinish(c)))
  {
  }

  // ----- and they come to an end -----

  /** No fill is owed, and every resolve that waits can return. */
  ghost predicate Settled(s: Stack)
    requires Sized(s)
  {
    && (forall t :: !P.Outstanding(s.pool, t))
    && (forall c :: 0 <= c < |s.pool.waiting| && s.pool.waiting[c] != [] ==> P.Enabled(s.pool, P.ResolveFinish(c)))
  }

  /** Neither a worker nor shutdown has a step to take. */
  ghost predicate Resting(s: Stack)
    requires Sized(s)
  {
    forall e :: !Works(s, e)
  }

  lemma NothingLeft(s: Stack)
    requires Sized(s) && StackOk(s) && Left(s) <= 0
    ensures Settled(s)
  {
    hide StackOk, P.Enabled, P.WorldOk, Left;
    PoolOk(s);
    forall t ensures !P.Outstanding(s.pool, t) {
      if P.Outstanding(s.pool, t) {
        OwedIsLeft(s, t);
      }
    }
    forall c | 0 <= c < |s.pool.waiting| && s.pool.waiting[c] != []
      ensures P.Enabled(s.pool, P.ResolveFinish(c)) {
      Q.WaitEnds(s.pool, c);
      NobodyAwaited(s, c);
    }
  }

  lemma NobodyAwaited(s: Stack, c: nat)
    requires c < |s.pool.waiting| && M.LeasesInPool(s.pool.pool, s.pool.waiting[c])
    requires forall i :: i in Q.Awaited(s.pool, c) ==>
        P.Outstanding(s.pool, Token(s.pool.waiting[c][i].slot, s.pool.waiting[c][i].generation))
    requires forall t :: !P.Outstanding(s.pool, t)
    ensures Q.Awaited(s.pool, c) == {}
  {
  }

  /** The backend rests exactly when nothing is left to do. */
  lemma RestsWhenDone(s: Stack)
    requires Sized(s) && StackOk(s) && 0 < |s.desk.ledgers|
    ensures Resting(s) <==> Left(s) == 0
  {
    hide StackOk, Works;
    LoadIsNatural(s.desk.backend);
    if Left(s) == 0 {
      forall e ensures !Works(s, e) {
        if Works(s, e) {
          WorkLowers(s, e);
          LoadIsNatural(Apply(s, e).desk.backend);
        }
      }
    } else {
      var e := LeftMoves(s);
    }
  }

  /** After any run, whatever it brought: if the backend has no step left, nothing is owed and every resolve that
      waits can return. */
  lemma WorkSettles(s: Stack, es: seq<Event>)
    requires Sized(s) && StackOk(s) && 0 < |s.desk.ledgers| && Resting(After(s, es))
    ensures Settled(After(s, es))
  {
    hide StackOk, Resting, Left, Settled;
    RunProjects(s, es);
    RestsWhenDone(After(s, es));
    NothingLeft(After(s, es));
  }

  /** How many steps of workers and shutdown a run takes. */
  ghost function Work(s: Stack, es: seq<Event>): nat
    requires Sized(s)
  {
    if es == [] then 0
    else
      var last := |es| - 1;
      Work(s, es[..last]) + if Works(After(s, es[..last]), es[last]) then 1 else 0
  }

  /** In a run that brings no new work there are at most as many such steps as were left, however often workers
      wake for nothing; and without a shutdown call, what is left is what is not yet done. */
  lemma {:induction false} WorkBounded(s: Stack, es: seq<Event>)
    requires Sized(s) && forall i :: 0 <= i < |es| ==> Calm(es[i])
    ensures 0 <= Left(After(s, es)) && Left(After(s, es)) + Work(s, es) <= Left(s)
    ensures Backend(B.Shutdown) !in es ==> Left(After(s, es)) + Work(s, es) == Left(s)
  {
    hide Apply, Left, Calm, Works;
    LeftIsNatural(After(s, es));
    if es != [] {
      var last := |es| - 1;
      WorkBounded(s, es[..last]);
      var before := After(s, es[..last]);
      assert es[last] in es;
      if Works(before, es[last]) {
        WorkLowers(before, es[last]);
      } else {
        CalmKeeps(before, es[last]);
      }
    }
  }

  lemma LeftIsNatural(s: Stack)
    ensures 0 <= Left(s)
  {
    LoadIsNatural(s.desk.backend);
  }

  /** And the backend can always finish: from every state a run of exactly as many such steps as are left ends
      with nothing owed and every resolve that waits able to return, those that waited before among them. */
  lemma {:induction false} WorkCompletes(s: Stack) returns (es: seq<Event>)
    requires Sized(s) && StackOk(s) && 0 < |s.desk.ledgers|
    ensures |es| == Work(s, es) == Left(s)
    ensures Settled(After(s, es)) && After(s, es).pool.waiting == s.pool.waiting
    decreases Left(s)
  {
    hide StackOk, Apply, Works, Left, Settled;
    LeftIsNatural(s);
    if Left(s) == 0 {
      es := [];
      NothingLeft(s);
    } else {
      var e := LeftMoves(s);
      WorkLowers(s, e);
      StackStep(s, e);
      StepKeeps(s, e);
      var more := WorkCompletes(Apply(s, e));
      es := [e] + more;
      FirstStep(s, e, more);
    }
  }

  lemma StepKeeps(s: Stack, e: Event)
    requires Sized(s) && StepOk(s, e) && Works(s, e)
    ensures StackOk(Apply(s, e)) && Apply(s, e).pool.waiting == s.pool.waiting
  {
    hide StackOk, M.OnComplete, Projects, Serves, Reported;
  }

  lemma {:induction false} FirstStep(s: Stack, e: Event, es: seq<Event>)
    requires Sized(s)
    ensures After(s, [e] + es) == After(Apply(s, e), es)
    ensures Work(s, [e] + es) == Work(Apply(s, e), es) + if Works(s, e) then 1 else 0
  {
    hide Apply, Works;
    if es == [] {
      assert [e] + es == [e] && [e][..0] == [];
    } else {
      var last := |es| - 1;
      assert ([e] + es)[..|es|] == [e] + es[..last];
      FirstStep(s, e, es[..last]);
    }
  }

  // ----- also by reads -----

  function Stores(i: nat, pieces: seq<Piece>): seq<Event> {
    seq(|pieces|, k requires 0 <= k < |pieces| => Store(i, pieces[k]))
  }

  /** A worker stores further pieces inside its destination. */
  lemma {:induction false} StoresGoOn(s: Stack, i: nat, pieces: seq<Piece>)
    requires Sized(s) && StackOk(s) && Working(s, i) && Contained(pieces, s.desk.backend.workers[i].item.request.length)
    requires pieces != [] ==> Reads(s.issuer, s.desk.backend.workers[i].item)
    ensures var now := After(s, Stores(i, pieces));
      && StackOk(now) && Working(now, i) && now.desk.backend == s.desk.backend
      && now.desk.ledgers[i].pieces == s.desk.ledgers[i].pieces + pieces
  {
    hide StackOk, Apply, Enabled;
    if pieces == [] {
      assert s.desk.ledgers[i].pieces + [] == s.desk.ledgers[i].pieces;
    } else {
      var last := |pieces| - 1;
      StoresGoOn(s, i, pieces[..last]);
      assert Stores(i, pieces)[..last] == Stores(i, pieces[..last]);
      var before := After(s, Stores(i, pieces[..last]));
      StoreGoesOn(before, i, pieces[last]);
      assert s.desk.ledgers[i].pieces + pieces == s.desk.ledgers[i].pieces + pieces[..last] + [pieces[last]];
    }
  }

  lemma StoreGoesOn(s: Stack, i: nat, piece: Piece)
    requires Sized(s) && StackOk(s) && Working(s, i) && Reads(s.issuer, s.desk.backend.workers[i].item)
    requires piece.at + |piece.bytes| <= s.desk.backend.workers[i].item.request.length
    ensures var now := Apply(s, Store(i, piece));
      && StackOk(now) && now.desk.backend == s.desk.backend
      && now.desk.ledgers[i].pieces == s.desk.ledgers[i].pieces + [piece]
  {
    hide P.WorldOk, B.WorldOk, Matched, Play, Overwrite;
    assert WorkerOk(s.issuer, s.desk, s.pool.mem, i);
    StackStep(s, Store(i, piece));
  }

  /** Whatever Perform may report can be delivered: a worker that has stored the first of its pieces can store
      the rest of them and then deliver the result, which is a step that brings the end closer. */
  lemma PerformIsStep(s: Stack, i: nat, rest: seq<Piece>, result: FillResult)
    requires Sized(s) && StackOk(s) && Working(s, i)
    requires var x := s.desk.backend.workers[i].item;
      Reported(s.file, x, s.issuer.base + x.request.destination, s.desk.ledgers[i].pieces + rest, result)
    ensures var now := After(s, Stores(i, rest));
      && StackOk(now) && Left(now) == Left(s) && Works(now, Finish(i, result))
      && Left(Apply(now, Finish(i, result))) + 1 == Left(s)
  {
    hide StackOk, Apply, Left, Lays;
    var x := s.desk.backend.workers[i].item;
    RestContained(s.desk.ledgers[i].pieces, rest, x, s.file, s.issuer.base + x.request.destination, result);
    StoresGoOn(s, i, rest);
    var now := After(s, Stores(i, rest));
    SameBackend(s, now);
    WorkLowers(now, Finish(i, result));
  }

  lemma SameBackend(s: Stack, now: Stack)
    requires now.desk.backend == s.desk.backend
    ensures Left(now) == Left(s)
  {
  }

  lemma RestContained(pieces: seq<Piece>, rest: seq<Piece>, x: BackendModel.WorkItem, file: seq<byte>, address: nat,
                      result: FillResult)
    requires Reported(file, x, address, pieces + rest, result)
    ensures Contained(rest, x.request.length) && (rest != [] ==> Readable(x, address))
  {
    hide Play;
    forall k | 0 <= k < |rest| ensures rest[k].at + |rest[k].bytes| <= x.request.length {
      assert (pieces + rest)[|pieces| + k] == rest[k];
    }
  }

  /** And there is always a result that fills: a worker that reads can still deliver, whatever it has stored so
      far, all that the file has of its request. */
  lemma MayFill(s: Stack, i: nat)
    requires Sized(s) && StackOk(s) && Working(s, i) && Reads(s.issuer, s.desk.backend.workers[i].item)
    ensures var r := s.desk.backend.workers[i].item.request;
      var n := Min(r.length, Available(s.file, r.offset));
      var now := After(s, Stores(i, [Piece(0, Slice(s.file, r.offset, n))]));
      && Works(now, Finish(i, FillResult(Ok, n)))
      && Left(Apply(now, Finish(i, FillResult(Ok, n)))) + 1 == Left(s)
  {
    hide P.WorldOk, B.WorldOk, Matched, Apply, Left, Works, Slice, Lays, Play;
    var x := s.desk.backend.workers[i].item;
    var n := Min(x.request.length, Available(s.file, x.request.offset));
    assert WorkerOk(s.issuer, s.desk, s.pool.mem, i);
    LaysAgain(s.desk.ledgers[i].pieces, x.request.length, Slice(s.file, x.request.offset, n));
    PerformIsStep(s, i, [Piece(0, Slice(s.file, x.request.offset, n))], FillResult(Ok, n));
  }

  /** A piece at the beginning lays its bytes, whatever was stored before. */
  lemma LaysAgain(pieces: seq<Piece>, n: nat, bytes: seq<byte>)
    requires Contained(pieces, n) && |bytes| <= n
    ensures Lays(pieces + [Piece(0, bytes)], n, bytes)
  {
    LaysNothing(pieces, n);
    LaysMore(pieces, n, [], Piece(0, bytes), bytes);
    assert [] + bytes == bytes;
  }
}
