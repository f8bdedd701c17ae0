/** One issuer of fills (a pool or a transfer set) among those LocalFileBackend serves. The backend is that of
    BackendRuns, with what each worker has stored so far; what it still holds of the issuer's requests is
    exactly what the issuer is still owed. */
module Service {
  import opened Transfer
  import opened Sums
  import opened Memory
  import opened PoolState
  import opened BackendModel
  import opened BackendRuns
  import opened DirectRead

  /** How the backend sees the issuer: where results go, which file it reads, where its memory begins. */
  datatype Issuer = Issuer(sink: nat, source: nat, base: nat)

  /** What the destination held when a worker took its request, and what the worker has stored there since. */
  datatype Ledger = Ledger(start: seq<byte>, pieces: seq<Piece>)

  datatype Desk = Desk(backend: World, ledgers: seq<Ledger>)

  predicate Wide(r: Request) { r.source <= U64_MAX && r.length <= U64_MAX }

  /** The request as it is submitted. */
  function FillOf(issuer: Issuer, r: Request): FillRequest
    requires Wide(r)
  {
    FillRequest(issuer.sink, issuer.source, r.source, r.destination, r.length, r.token)
  }

  predicate Mine(issuer: Issuer, x: WorkItem) { x.request.sink == issuer.sink }

  // ----- what the backend holds -----

  predicate PerformedBy(b: World, i: nat, x: WorkItem) { i < |b.workers| && b.workers[i] == Performing(x) }

  /** Accepted and not yet delivered: queued, with a worker, or drained by shutdown. */
  predicate Has(b: World, x: WorkItem) {
    x in b.core.queue || (exists i: nat :: i < |b.workers| && PerformedBy(b, i, x)) || x in Rest(b)
  }

  predicate Undelivered(requests: map<Token, Request>, delivered: set<Token>, t: Token)
  {
    t in requests && t !in delivered
  }

  /** The backend holds the issuer's undelivered requests, each once and as it was issued, and no others of his. */
  ghost predicate Matched(issuer: Issuer, b: World, requests: map<Token, Request>, delivered: set<Token>) {
    && (forall t :: t in requests ==> Wide(requests[t]) && requests[t].token == t)
    && (forall x :: Has(b, x) && Mine(issuer, x) ==>
          Undelivered(requests, delivered, x.request.token) && x.request == FillOf(issuer, requests[x.request.token]))
    && (forall x, y | Has(b, x) && Has(b, y) && Mine(issuer, x) && Mine(issuer, y) ::
          x.request.token == y.request.token ==> x == y)
    && (forall t :: Undelivered(requests, delivered, t) ==> HasToken(issuer, b, t))
  }

  ghost predicate HasToken(issuer: Issuer, b: World, t: Token) {
    exists x :: Has(b, x) && Mine(issuer, x) && x.request.token == t
  }

  lemma CountedIn<T>(xs: seq<T>, w: T -> int, x: T)
    requires x in xs && 0 < w(x) && forall i :: 0 <= i < |xs| ==> 0 <= w(xs[i])
    ensures 0 < Sum(xs, w)
  {
    SumBounds(xs, w);
    var i :| 0 <= i < |xs| && xs[i] == x;
    assert w(xs[i]) <= Sum(xs, w);
  }

  /** What is held is counted where it is. */
  lemma HeldCounts(b: World, x: WorkItem)
    ensures 0 <= Sum(b.core.queue, Is(x)) && 0 <= Sum(b.workers, Owns(x)) && 0 <= Sum(Rest(b), Is(x))
    ensures Has(b, x) ==> 0 < Sum(b.core.queue, Is(x)) + Sum(b.workers, Owns(x)) + Sum(Rest(b), Is(x))
  {
    hide Rest;
    SumBounds(b.core.queue, Is(x));
    SumBounds(b.workers, Owns(x));
    SumBounds(Rest(b), Is(x));
    if x in b.core.queue {
      CountedIn(b.core.queue, Is(x), x);
    } else if x in Rest(b) {
      CountedIn(Rest(b), Is(x), x);
    } else if i: nat :| i < |b.workers| && PerformedBy(b, i, x) {
      CountedIn(b.workers, Owns(x), b.workers[i]);
    }
  }

  /** What has been delivered is held no more. */
  lemma DeliveredIsGone(b: World, x: WorkItem, d: Delivery)
    requires WorldOk(b) && d in b.log && d.item == x
    ensures !Has(b, x)
  {
    hide WorldOk, Rest, Has;
    DeliveredOnce(b, x);
    HeldCounts(b, x);
    CountedIn(b.log, Delivers(x), d);
  }

  /** Two workers that perform the same request count twice. */
  lemma TwoWorkers(b: World, i: nat, j: nat, x: WorkItem)
    requires PerformedBy(b, i, x) && PerformedBy(b, j, x) && i != j
    ensures 2 <= Sum(b.workers, Owns(x))
  {
    var fewer := b.workers[i := Awake];
    SumUpdate(b.workers, i, Awake, Owns(x));
    SumBounds(fewer, Owns(x));
    assert Owns(x)(fewer[j]) <= Sum(fewer, Owns(x));
  }

  /** No two workers perform the same request. */
  lemma OneWorkerEach(b: World, i: nat, j: nat, x: WorkItem)
    requires WorldOk(b) && PerformedBy(b, i, x) && PerformedBy(b, j, x)
    ensures i == j
  {
    hide WorldOk, Rest;
    DeliveredOnce(b, x);
    HeldCounts(b, x);
    SumBounds(b.log, Delivers(x));
    if i != j {
      TwoWorkers(b, i, j, x);
    }
  }

  // ----- what the workers have stored -----

  /** The destination is what it was when the worker took the request, with the worker's pieces and no others. */
  predicate StoredOk(mem: seq<byte>, r: FillRequest, p: Ledger) {
    && r.destination + r.length <= |mem| && |p.start| == r.length && Contained(p.pieces, r.length)
    && Part(mem, r.destination, r.length) == Play(p.start, 0, r.length, p.pieces)
  }

  /** A worker reads for the request: its source is known and, uncached, its alignment is right. */
  predicate Reads(issuer: Issuer, x: WorkItem) { Readable(x, issuer.base + x.request.destination) }

  predicate WorkerOk(issuer: Issuer, d: Desk, mem: seq<byte>, i: nat)
    requires i < |d.backend.workers| == |d.ledgers|
  {
    d.backend.workers[i].Performing? && Mine(issuer, d.backend.workers[i].item) ==>
      && StoredOk(mem, d.backend.workers[i].item.request, d.ledgers[i])
      && (!Reads(issuer, d.backend.workers[i].item) ==> d.ledgers[i].pieces == [])
  }

  predicate LedgersOk(issuer: Issuer, d: Desk, mem: seq<byte>) {
    && |d.ledgers| == |d.backend.workers|
    && forall i :: 0 <= i < |d.ledgers| ==> WorkerOk(issuer, d, mem, i)
  }

  /** The destinations of what the issuer is owed lie in its memory, apart from each other. */
  ghost predicate Spaced(requests: map<Token, Request>, delivered: set<Token>, mem: seq<byte>) {
    && (forall t :: Undelivered(requests, delivered, t) ==> requests[t].destination + requests[t].length <= |mem|)
    && (forall t, u :: Undelivered(requests, delivered, t) && Undelivered(requests, delivered, u) && t != u ==>
         Separate(requests[t], requests[u]))
  }

  predicate Separate(a: Request, b: Request)
  {
    a.destination + a.length <= b.destination || b.destination + b.length <= a.destination
  }

  ghost predicate DeskOk(issuer: Issuer, d: Desk, mem: seq<byte>, requests: map<Token, Request>,
                         delivered: set<Token>) {
    WorldOk(d.backend) && Matched(issuer, d.backend, requests, delivered) && LedgersOk(issuer, d, mem)
  }

  // ----- the backend's steps that do not concern the issuer -----

  /** Not a submit by the issuer, nor a delivery to it. */
  predicate Background(issuer: Issuer, b: World, e: Event) {
    && Enabled(b, e)
    && match e
       case Submit(request, _) => request.sink != issuer.sink
       case Finish(i, _) => !Mine(issuer, b.workers[i].item)
       case Cancel => b.drain.uncounted || !Mine(issuer, b.drain.rest[0])
       case _ => true
  }

  /** The backend moves on; a worker that takes a request starts with nothing stored. */
  function Move(d: Desk, mem: seq<byte>, e: Event): (d': Desk)
    requires |d.ledgers| == |d.backend.workers|
    ensures |d'.ledgers| == |d'.backend.workers| == |d.backend.workers|
  {
    WorkersKept(d.backend, e);
    var b := Apply(d.backend, e);
    if e.Step? && e.worker < |b.workers| && d.backend.workers[e.worker].Awake? && b.workers[e.worker].Performing? then
      var r := b.workers[e.worker].item.request;
      Desk(b, d.ledgers[e.worker := Ledger(Part(mem, r.destination, r.length), [])])
    else Desk(b, d.ledgers)
  }

  lemma WorkersKept(b: World, e: Event)
    ensures |Apply(b, e).workers| == |b.workers|
  {
    hide Find;
  }

  lemma StepHolds(b: World, i: nat, x: WorkItem)
    requires Enabled(b, Step(i))
    ensures Has(StepWorker(b, i), x) <==> Has(b, x)
  {
    var b' := StepWorker(b, i);
    if b.workers[i].Awake? && b.core.queue != [] {
      assert b.core.queue == [b.core.queue[0]] + b'.core.queue;
      assert PerformedBy(b', i, b.core.queue[0]);
    }
    forall j: nat, y | j < |b.workers| && PerformedBy(b, j, y) ensures PerformedBy(b', j, y) {}
    forall j: nat, y | j < |b.workers| && PerformedBy(b', j, y) && !PerformedBy(b, j, y) ensures y in b.core.queue {}
  }

  lemma ShutdownHolds(b: World, x: WorkItem)
    requires WakeOk(b)
    ensures Has(StartShutdown(b), x) <==> Has(b, x)
  {
    var b' := StartShutdown(b);
    forall j: nat | j < |b.workers| ensures PerformedBy(b', j, x) <==> PerformedBy(b, j, x) {}
  }

  /** Such a step leaves what the backend holds of the issuer's requests as it is. */
  lemma BackgroundHolds(issuer: Issuer, b: World, e: Event, x: WorkItem)
    requires WakeOk(b) && Background(issuer, b, e) && Mine(issuer, x)
    ensures Has(Apply(b, e), x) <==> Has(b, x)
  {
    hide StepWorker, StartShutdown, WakeOk, NoneAsleep, AllExited, Find;
    var b' := Apply(b, e);
    match e
    case Step(i) => StepHolds(b, i, x);
    case Shutdown => ShutdownHolds(b, x);
    case Cancel =>
      if !b.drain.uncounted {
        assert b.drain.rest == [b.drain.rest[0]] + b'.drain.rest;
      }
      SameWorkersHold(b, b', x);
    case Finish(i, result) =>
      forall j: nat | j < |b.workers| ensures PerformedBy(b', j, x) <==> PerformedBy(b, j, x) {}
    case Submit(request, wakes) =>
      forall j: nat | j < |b.workers| ensures PerformedBy(b', j, x) <==> PerformedBy(b, j, x) {}
    case Spurious(i) =>
      forall j: nat | j < |b.workers| ensures PerformedBy(b', j, x) <==> PerformedBy(b, j, x) {}
    case _ => SameWorkersHold(b, b', x);
  }

  lemma SameWorkersHold(b: World, b': World, x: WorkItem)
    requires b'.workers == b.workers
    ensures (exists i: nat :: i < |b.workers| && PerformedBy(b, i, x)) <==>
        (exists i: nat :: i < |b'.workers| && PerformedBy(b', i, x))
  {
    forall j: nat | j < |b.workers| ensures PerformedBy(b', j, x) <==> PerformedBy(b, j, x) {}
  }

  /** If the same requests of the issuer are held, they are linked to the same ones he is owed. */
  lemma MatchedSame(issuer: Issuer, b: World, b': World, requests: map<Token, Request>, delivered: set<Token>)
    requires Matched(issuer, b, requests, delivered) && forall x :: Mine(issuer, x) ==> (Has(b', x) <==> Has(b, x))
    ensures Matched(issuer, b', requests, delivered)
  {
    hide Has;
    forall t | Undelivered(requests, delivered, t) ensures HasToken(issuer, b', t) {
      assert HasToken(issuer, b, t);
    }
  }

  lemma HeldRequest(issuer: Issuer, b: World, requests: map<Token, Request>, delivered: set<Token>, x: WorkItem)
    requires Matched(issuer, b, requests, delivered) && Has(b, x) && Mine(issuer, x)
    ensures Undelivered(requests, delivered, x.request.token) && Wide(requests[x.request.token])
    ensures x.request == FillOf(issuer, requests[x.request.token])
  {
  }

  /** A worker that performs a request after a step did so before, or took it in this step. */
  lemma MoveWorkers(d: Desk, mem: seq<byte>, e: Event, i: nat)
    requires |d.ledgers| == |d.backend.workers| && i < |d.ledgers| && Enabled(d.backend, e)
    requires Apply(d.backend, e).workers[i].Performing?
    ensures var d' := Move(d, mem, e);
      || (d'.backend.workers[i] == d.backend.workers[i] && d'.ledgers[i] == d.ledgers[i])
      || d'.ledgers[i] == Ledger(Part(mem, d'.backend.workers[i].item.request.destination,
                                      d'.backend.workers[i].item.request.length), [])
  {
    hide Find;
  }

  lemma BackgroundOk(issuer: Issuer, d: Desk, mem: seq<byte>, requests: map<Token, Request>, delivered: set<Token>,
                     e: Event)
    requires DeskOk(issuer, d, mem, requests, delivered) && Spaced(requests, delivered, mem)
    requires Background(issuer, d.backend, e)
    ensures DeskOk(issuer, Move(d, mem, e), mem, requests, delivered)
  {
    hide WorldOk, Matched, Has, Apply, Background, Enabled;
    var d' := Move(d, mem, e);
    EventOk(d.backend, e);
    WorldWakes(d.backend);
    BackgroundEnabled(issuer, d.backend, e);
    forall x | Mine(issuer, x)
      ensures Has(d'.backend, x) <==> Has(d.backend, x) { BackgroundHolds(issuer, d.backend, e, x); }
    MatchedSame(issuer, d.backend, d'.backend, requests, delivered);
    forall i | 0 <= i < |d'.ledgers| ensures WorkerOk(issuer, d', mem, i) {
      MovedWorkerOk(issuer, d, mem, requests, delivered, e, i);
    }
  }

  lemma BackgroundEnabled(issuer: Issuer, b: World, e: Event)
    requires Background(issuer, b, e)
    ensures Enabled(b, e)
  {
  }

  lemma WorldWakes(b: World)
    requires WorldOk(b)
    ensures WakeOk(b)
  {
  }

  lemma MovedWorkerOk(issuer: Issuer, d: Desk, mem: seq<byte>, requests: map<Token, Request>, delivered: set<Token>,
                      e: Event, i: nat)
    requires LedgersOk(issuer, d, mem) && Spaced(requests, delivered, mem) && Enabled(d.backend, e) && i < |d.ledgers|
    requires Matched(issuer, Apply(d.backend, e), requests, delivered)
    ensures WorkerOk(issuer, Move(d, mem, e), mem, i)
  {
    hide Matched, Apply, Enabled;
    var d' := Move(d, mem, e);
    if d'.backend.workers[i].Performing? && Mine(issuer, d'.backend.workers[i].item) {
      var x := d'.backend.workers[i].item;
      MoveWorkers(d, mem, e, i);
      assert PerformedBy(d'.backend, i, x);
      HeldRequest(issuer, d'.backend, requests, delivered, x);
      assert WorkerOk(issuer, d, mem, i);
    }
  }

  // ----- the issuer submits -----

  /** Which sleeper a submit wakes: the one `hint` names if it sleeps, else any. */
  function Woken(workers: seq<Worker>, hint: nat): (i: nat)
    ensures NoneAsleep(workers) || (i < |workers| && workers[i].Asleep?)
  {
    if hint < |workers| && workers[hint].Asleep? then hint else FirstAsleep(workers)
  }

  function FirstAsleep(workers: seq<Worker>): (i: nat)
    ensures NoneAsleep(workers) || (i < |workers| && workers[i].Asleep?)
  {
    if workers == [] then 0
    else if workers[0].Asleep? then 0
    else
      assert forall j :: 0 < j < |workers| ==> workers[j] == workers[1..][j - 1];
      FirstAsleep(workers[1..]) + 1
  }

  function SubmitFill(d: Desk, mem: seq<byte>, issuer: Issuer, r: Request, hint: nat): (d': Desk)
    requires |d.ledgers| == |d.backend.workers| && Wide(r)
    ensures |d'.ledgers| == |d'.backend.workers| == |d.backend.workers|
  {
    Move(d, mem, Submit(FillOf(issuer, r), Woken(d.backend.workers, hint)))
  }

  lemma SubmitHolds(b: World, request: FillRequest, wakes: nat, x: WorkItem)
    requires Enabled(b, Submit(request, wakes))
    ensures Has(Apply(b, Submit(request, wakes)), x) <==>
        Has(b, x) || (Accepts(b.core) && x == ItemFor(b.core, request))
  {
    hide Find;
    var b' := Apply(b, Submit(request, wakes));
    forall j: nat | j < |b.workers| ensures PerformedBy(b', j, x) <==> PerformedBy(b, j, x) {}
  }

  /** The request is held from now on if the backend accepted it, and otherwise nothing has changed. */
  lemma SubmitOk(issuer: Issuer, d: Desk, mem: seq<byte>, requests: map<Token, Request>, delivered: set<Token>,
                 r: Request, hint: nat)
    requires DeskOk(issuer, d, mem, requests, delivered) && Wide(r) && r.token !in requests
    requires delivered <= requests.Keys
    requires Spaced(requests, delivered, mem)
    ensures DeskOk(issuer, SubmitFill(d, mem, issuer, r, hint), mem,
                   if Accepts(d.backend.core) then requests[r.token := r] else requests, delivered)
  {
    hide WorldOk, Matched, Has, Apply, Accepts;
    var e := Submit(FillOf(issuer, r), Woken(d.backend.workers, hint));
    var d' := SubmitFill(d, mem, issuer, r, hint);
    EventOk(d.backend, e);
    forall x ensures Has(d'.backend, x) <==>
        Has(d.backend, x) || (Accepts(d.backend.core) && x == ItemFor(d.backend.core, e.request)) {
      SubmitHolds(d.backend, e.request, e.wakes, x);
    }
    MatchedMore(issuer, d.backend, d'.backend, requests, delivered, r, Accepts(d.backend.core));
    forall i | 0 <= i < |d'.ledgers| ensures WorkerOk(issuer, d', mem, i) {
      SubmitWorkers(d, mem, e, i);
      assert WorkerOk(issuer, d, mem, i);
    }
  }

  lemma SubmitWorkers(d: Desk, mem: seq<byte>, e: Event, i: nat)
    requires |d.ledgers| == |d.backend.workers| && i < |d.ledgers| && e.Submit? && Enabled(d.backend, e)
    ensures var d' := Move(d, mem, e);
      && d'.ledgers[i] == d.ledgers[i]
      && (d'.backend.workers[i].Performing? ==> d'.backend.workers[i] == d.backend.workers[i])
  {
    hide Find;
  }

  lemma MatchedMore(issuer: Issuer, b: World, b': World, requests: map<Token, Request>, delivered: set<Token>,
                    r: Request, accepted: bool)
    requires Matched(issuer, b, requests, delivered) && Wide(r) && r.token !in requests && delivered <= requests.Keys
    requires forall x :: Has(b', x) <==> Has(b, x) || (accepted && x == ItemFor(b.core, FillOf(issuer, r)))
    ensures Matched(issuer, b', if accepted then requests[r.token := r] else requests, delivered)
  {
    hide Has;
    var requests' := if accepted then requests[r.token := r] else requests;
    forall t | Undelivered(requests', delivered, t) ensures HasToken(issuer, b', t) {
      if t == r.token {
        assert Has(b', ItemFor(b.core, FillOf(issuer, r)));
      } else {
        assert HasToken(issuer, b, t);
      }
    }
  }

  // ----- a worker stores, and delivers -----

  /** One store of the i-th worker, in memory and in its ledger. */
  function StoreDesk(d: Desk, i: nat, piece: Piece): Desk
    requires i < |d.ledgers|
  {
    d.(ledgers := d.ledgers[i := d.ledgers[i].(pieces := d.ledgers[i].pieces + [piece])])
  }

  /** It touches no other worker's destination. */
  lemma StoreOk(issuer: Issuer, d: Desk, mem: seq<byte>, requests: map<Token, Request>, delivered: set<Token>,
                i: nat, piece: Piece)
    requires DeskOk(issuer, d, mem, requests, delivered) && Spaced(requests, delivered, mem)
    requires i < |d.ledgers| && d.backend.workers[i].Performing? && Mine(issuer, d.backend.workers[i].item)
    requires Reads(issuer, d.backend.workers[i].item)
    requires piece.at + |piece.bytes| <= d.backend.workers[i].item.request.length
    ensures d.backend.workers[i].item.request.destination + piece.at + |piece.bytes| <= |mem|
    ensures DeskOk(issuer, StoreDesk(d, i, piece),
                   Overwrite(mem, d.backend.workers[i].item.request.destination + piece.at, piece.bytes),
                   requests, delivered)
  {
    hide WorldOk, Matched, Overwrite, Play;
    var x := d.backend.workers[i].item;
    assert PerformedBy(d.backend, i, x);
    HeldRequest(issuer, d.backend, requests, delivered, x);
    assert WorkerOk(issuer, d, mem, i);
    var mem' := Overwrite(mem, x.request.destination + piece.at, piece.bytes);
    var d' := StoreDesk(d, i, piece);
    forall j | 0 <= j < |d'.ledgers| ensures WorkerOk(issuer, d', mem', j) {
      assert WorkerOk(issuer, d, mem, j);
      if d.backend.workers[j].Performing? && Mine(issuer, d.backend.workers[j].item) {
        if j == i {
          PlayMore(d.ledgers[i].start, 0, x.request.length, d.ledgers[i].pieces, piece);
          OverwriteInside(mem, x.request.destination, x.request.length, piece);
        } else {
          OtherDestination(issuer, d, requests, delivered, mem, i, j);
          var y := d.backend.workers[j].item.request;
          OverwriteApart(mem, x.request.destination + piece.at, piece.bytes, y.destination, y.destination + y.length);
        }
      }
    }
  }

  lemma OtherDestination(issuer: Issuer, d: Desk, requests: map<Token, Request>, delivered: set<Token>,
                         mem: seq<byte>, i: nat, j: nat)
    requires DeskOk(issuer, d, mem, requests, delivered) && Spaced(requests, delivered, mem)
    requires i < |d.ledgers| && j < |d.ledgers| && i != j
    requires d.backend.workers[i].Performing? && Mine(issuer, d.backend.workers[i].item)
    requires d.backend.workers[j].Performing? && Mine(issuer, d.backend.workers[j].item)
    ensures var a, b := d.backend.workers[i].item.request, d.backend.workers[j].item.request;
      a.destination + a.length <= b.destination || b.destination + b.length <= a.destination
  {
    hide WorldOk;
    var x, y := d.backend.workers[i].item, d.backend.workers[j].item;
    assert PerformedBy(d.backend, i, x) && PerformedBy(d.backend, j, y);
    if x == y {
      OneWorkerEach(d.backend, i, j, x);
    }
    assert Separate(requests[x.request.token], requests[y.request.token]);
  }

  /** What is delivered is owed no more; everything else stays linked. */
  lemma MatchedLess(issuer: Issuer, b: World, b': World, requests: map<Token, Request>, delivered: set<Token>,
                    x: WorkItem)
    requires Matched(issuer, b, requests, delivered) && Has(b, x) && Mine(issuer, x)
    requires forall y :: Has(b', y) <==> Has(b, y) && y != x
    ensures Matched(issuer, b', requests, delivered + {x.request.token})
  {
    hide Has;
    forall t | Undelivered(requests, delivered + {x.request.token}, t) ensures HasToken(issuer, b', t) {
      assert HasToken(issuer, b, t);
    }
  }

  lemma FinishHolds(b: World, i: nat, result: FillResult, y: WorkItem)
    requires WorldOk(b) && Enabled(b, Finish(i, result))
    ensures Has(Apply(b, Finish(i, result)), y) <==> Has(b, y) && y != b.workers[i].item
  {
    var b' := Apply(b, Finish(i, result));
    var x := b.workers[i].item;
    EventOk(b, Finish(i, result));
    hide WorldOk;
    assert b'.log[|b.log|] == Delivery(x, result);
    DeliveredIsGone(b', x, Delivery(x, result));
    forall j: nat | j < |b.workers| && j != i ensures PerformedBy(b', j, y) <==> PerformedBy(b, j, y) {}
  }

  lemma CancelHolds(b: World, y: WorkItem)
    requires WorldOk(b) && Enabled(b, Cancel) && !b.drain.uncounted
    ensures Has(Apply(b, Cancel), y) <==> Has(b, y) && y != b.drain.rest[0]
  {
    var b' := Apply(b, Cancel);
    var x := b.drain.rest[0];
    EventOk(b, Cancel);
    hide WorldOk;
    assert b'.log[|b.log|] == Delivery(x, FillResult(Cancelled, 0));
    DeliveredIsGone(b', x, Delivery(x, FillResult(Cancelled, 0)));
    assert b.drain.rest == [x] + b'.drain.rest;
    SameWorkersHold(b, b', y);
  }

  /** A delivery to the issuer: by the worker that performed the request, or by shutdown. */
  lemma DeliveryOk(issuer: Issuer, d: Desk, mem: seq<byte>, requests: map<Token, Request>, delivered: set<Token>,
                   e: Event, x: WorkItem)
    requires DeskOk(issuer, d, mem, requests, delivered) && Enabled(d.backend, e) && Mine(issuer, x)
    requires (e.Finish? && x == d.backend.workers[e.worker].item)
        || (e.Cancel? && !d.backend.drain.uncounted && x == d.backend.drain.rest[0])
    ensures DeskOk(issuer, Move(d, mem, e), mem, requests, delivered + {x.request.token})
    ensures Has(d.backend, x)
  {
    var b := d.backend;
    var d' := Move(d, mem, e);
    if e.Finish? {
      assert PerformedBy(b, e.worker, x);
    }
    hide WorldOk, Matched;
    EventOk(b, e);
    forall y ensures Has(d'.backend, y) <==> Has(b, y) && y != x {
      if e.Finish? { FinishHolds(b, e.worker, e.result, y); } else { CancelHolds(b, y); }
    }
    MatchedLess(issuer, b, d'.backend, requests, delivered, x);
    forall i | 0 <= i < |d'.ledgers| ensures WorkerOk(issuer, d', mem, i) { assert WorkerOk(issuer, d, mem, i); }
  }

  /** A result that a worker's own stores allow is an honest one: if it completes the request, the destination
      holds the bytes of the source, of which the file is the beginning. */
  lemma ReportedIsHonest(issuer: Issuer, d: Desk, mem: seq<byte>, file: seq<byte>, source: seq<byte>, i: nat,
                         address: nat, result: FillResult)
    requires LedgersOk(issuer, d, mem) && file <= source
    requires i < |d.ledgers| && d.backend.workers[i].Performing? && Mine(issuer, d.backend.workers[i].item)
    requires Reported(file, d.backend.workers[i].item, address, d.ledgers[i].pieces, result)
    ensures var r := d.backend.workers[i].item.request;
      && (result.status == Ok || result.status == IoError || result.status == InvalidArgument)
      && (ClassifyFill(result, r.length) == Ok ==> InMemory(mem, r.destination, Part(source, r.offset, r.length)))
      && (result.status == Ok ==> result.bytes == Min(r.length, Available(file, r.offset)))
  {
    hide Lays, Play, UncachedValid;
    var r := d.backend.workers[i].item.request;
    var p := d.ledgers[i];
    assert WorkerOk(issuer, d, mem, i);
    if result.status == Ok && result.bytes == r.length {
      LaidPart(p.start, 0, r.length, p.pieces, Slice(file, r.offset, r.length));
      PartWhole(Play(p.start, 0, r.length, p.pieces));
      SourceSlice(file, source, r.offset, r.length);
    }
  }

  lemma PartWhole(bytes: seq<byte>)
    ensures Part(bytes, 0, |bytes|) == bytes
  {
  }

  lemma SourceSlice(file: seq<byte>, source: seq<byte>, position: nat, length: nat)
    requires file <= source && length <= Available(file, position)
    ensures Slice(file, position, length) == Part(source, position, length)
  {
  }

  // ----- a request, performed -----

  /** A worker serves one of the issuer's requests: the work item it makes of it, what Perform stores and what
      it reports. */
  method Serve(issuer: Issuer, r: Request, call: nat, source: Option<Source>, device: Device, ghost file: seq<byte>,
               memory: array<byte>, scratch: array<byte>, ghost scratchAddress: nat, limit: nat, ready: bool)
    returns (item: WorkItem, result: FillResult, ghost pieces: seq<Piece>)
    requires Wide(r) && r.destination + r.length <= memory.Length
    requires scratch.Length == BLOCK && scratchAddress % BLOCK == 0 && scratch != memory
    requires source.Some? ==> Obeys(device, file, source.value.access)
    requires BLOCK <= limit && (limit % BLOCK == 0 || r.length <= limit)
    modifies memory, scratch
    ensures item == WorkItem(call, FillOf(issuer, r), source)
    ensures Contained(pieces, r.length) && Reported(file, item, issuer.base + r.destination, pieces, result)
    ensures memory[..] == Play(old(memory[..]), r.destination, r.length, pieces)
    ensures Reads(issuer, item) && ready && NeverFails(device) ==>
      result == FillResult(Ok, Min(r.length, Available(file, r.source)))
  {
    hide Reported, Obeys, Play, NeverFails, Available;
    item := WorkItem(call, FillOf(issuer, r), source);
    ghost var issued, answers;
    result, issued, answers, pieces :=
        Perform(device, file, item, memory, issuer.base, scratch, scratchAddress, limit, ready);
  }

  /** A worker goes on performing its request, with what it has stored, until it delivers. */
  lemma MoveKeepsWorker(d: Desk, mem: seq<byte>, e: Event, i: nat)
    requires |d.ledgers| == |d.backend.workers| && i < |d.ledgers| && d.backend.workers[i].Performing?
    requires !(e.Finish? && e.worker == i)
    ensures var d' := Move(d, mem, e);
      d'.backend.workers[i] == d.backend.workers[i] && d'.ledgers[i] == d.ledgers[i]
  {
    hide Find;
  }

  lemma NothingHeld(b: World)
    requires WorldOk(b) && b.drain.Returned?
    ensures forall x :: !Has(b, x)
  {
    WorldWakes(b);
    ReturnedIdle(b);
  }
}
