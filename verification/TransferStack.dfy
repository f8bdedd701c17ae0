/** A TransferSet over LocalFileBackend, with all the backend's workers at once: the same product as Stack, for
    the other ownership mode. Every run of it is a run of TransferRuns. */
module TransferStack {
  import Sums
  import opened Transfer
  import opened Memory
  import opened PoolState
  import opened Service
  import opened DirectRead
  import BackendModel
  import B = BackendRuns
  import M = TransferModel
  import R = TransferRuns

  datatype Stack = Stack(issuer: Issuer, file: seq<byte>, issued: R.World, desk: Desk)

  datatype Event =
    | Submit(source: ByteRange, destination: u64, wakes: nat)
    | Release(record: nat)
    | Backend(step: B.Event)
    | Store(worker: nat, piece: Piece)
    | Finish(worker: nat, result: FillResult)
    | Cancel

  predicate Sized(s: Stack) { M.Shaped(s.issued.transfers) && |s.desk.ledgers| == |s.desk.backend.workers| }

  /** What a submit asks of the backend: nothing if it is refused before. */
  function Ask(t: M.Transfers, source: ByteRange, destination: u64): (r: Option<Request>)
    requires M.Shaped(t)
    ensures r.Some? ==> Wide(r.value)
  {
    var claim := M.Submit(t, source, destination, true).1;
    if claim.Claimed? then Some(M.RequestOf(source, destination, claim.record, claim.generation)) else None
  }

  function Submits(s: Stack, source: ByteRange, destination: u64, wakes: nat): (r: (Desk, bool))
    requires Sized(s)
    ensures |r.0.ledgers| == |r.0.backend.workers| == |s.desk.ledgers|
  {
    var asked := Ask(s.issued.transfers, source, destination);
    if asked.None? then (s.desk, false)
    else (SubmitFill(s.desk, s.issued.mem, s.issuer, asked.value, wakes), BackendModel.Accepts(s.desk.backend.core))
  }

  predicate Working(s: Stack, i: nat) {
    i < |s.desk.backend.workers| && s.desk.backend.workers[i].Performing?
        && Mine(s.issuer, s.desk.backend.workers[i].item)
  }

  ghost predicate Enabled(s: Stack, e: Event)
    requires Sized(s)
  {
    match e
    case Submit(_, _, _) => true
    case Release(r) => R.Enabled(s.issued, R.Release(r))
    case Backend(be) => Background(s.issuer, s.desk.backend, be)
    case Store(i, piece) =>
      && Working(s, i) && Reads(s.issuer, s.desk.backend.workers[i].item)
      && var r := s.desk.backend.workers[i].item.request;
         piece.at + |piece.bytes| <= r.length && r.destination + r.length <= |s.issued.mem|
    case Finish(i, result) =>
      && Working(s, i)
      && var x := s.desk.backend.workers[i].item;
         Reported(s.file, x, s.issuer.base + x.request.destination, s.desk.ledgers[i].pieces, result)
    case Cancel =>
      var drain := s.desk.backend.drain;
      drain.Draining? && !drain.uncounted && drain.rest != [] && Mine(s.issuer, drain.rest[0])
  }

  function Deliver(w: R.World, t: Token, result: FillResult): (w': R.World)
    requires M.Shaped(w.transfers)
    ensures M.Shaped(w'.transfers)
  {
    w.(transfers := M.OnComplete(w.transfers, t, result), delivered := w.delivered + {t})
  }

  ghost function Apply(s: Stack, e: Event): (s': Stack)
    requires Sized(s)
    ensures Sized(s') && s'.issuer == s.issuer && s'.file == s.file && |s'.desk.ledgers| == |s.desk.ledgers|
  {
    if !Enabled(s, e) then s
    else match e
      case Submit(source, destination, wakes) =>
        var (desk, answer) := Submits(s, source, destination, wakes);
        s.(desk := desk, issued := s.issued.(transfers := M.Submit(s.issued.transfers, source, destination, answer).0))
      case Release(r) => s.(issued := s.issued.(transfers := M.ReleaseClaim(s.issued.transfers, r)))
      case Backend(be) => s.(desk := Move(s.desk, s.issued.mem, be))
      case Store(i, piece) =>
        s.(issued := s.issued.(mem := Overwrite(s.issued.mem,
                                                s.desk.backend.workers[i].item.request.destination + piece.at,
                                                    piece.bytes)),
           desk := StoreDesk(s.desk, i, piece))
      case Finish(i, result) =>
        s.(issued := Deliver(s.issued, s.desk.backend.workers[i].item.request.token, result),
           desk := Move(s.desk, s.issued.mem, B.Finish(i, result)))
      case Cancel =>
        s.(issued := Deliver(s.issued, s.desk.backend.drain.rest[0].request.token, FillResult(Cancelled, 0)),
           desk := Move(s.desk, s.issued.mem, B.Cancel))
  }

  /** What the set sees of an event. */
  ghost function Seen(s: Stack, e: Event): Option<R.Event>
    requires Sized(s)
  {
    if !Enabled(s, e) then None
    else match e
      case Submit(source, destination, wakes) =>
          Some(R.Submit(source, destination, Submits(s, source, destination, wakes).1))
      case Release(r) => Some(R.Release(r))
      case Backend(_) => None
      case Store(i, piece) =>
        var r := s.desk.backend.workers[i].item.request;
        Some(R.Write(r.token, Part(Overwrite(s.issued.mem, r.destination + piece.at, piece.bytes), r.destination,
                                   r.length)))
      case Finish(i, result) => Some(R.Deliver(s.desk.backend.workers[i].item.request.token, result))
      case Cancel => Some(R.Deliver(s.desk.backend.drain.rest[0].request.token, FillResult(Cancelled, 0)))
  }

  // ----- what every run keeps -----

  ghost predicate StackOk(s: Stack) {
    && Sized(s) && R.WorldOk(s.issued) && s.file <= s.issued.source
    && DeskOk(s.issuer, s.desk, s.issued.mem, s.issued.transfers.requests, s.issued.delivered)
  }

  /** The ranges of transfers in flight lie in the destination, apart from each other. */
  lemma SetSpaced(w: R.World)
    requires R.WorldOk(w)
    ensures Spaced(w.transfers.requests, w.delivered, w.mem) && w.delivered <= w.transfers.requests.Keys
  {
    hide M.Inv;
    forall t | Undelivered(w.transfers.requests, w.delivered, t)
      ensures w.transfers.requests[t].destination + w.transfers.requests[t].length <= |w.mem| {
      InFlightRange(w, t);
    }
    forall t, u | Undelivered(w.transfers.requests, w.delivered, t)
        && Undelivered(w.transfers.requests, w.delivered, u) && t != u
      ensures Separate(w.transfers.requests[t], w.transfers.requests[u]) {
      InFlightRange(w, t);
      InFlightRange(w, u);
      R.RangesApart(w, t, u.index);
    }
  }

  lemma InFlightRange(w: R.World, t: Token)
    requires R.WorldOk(w) && R.Outstanding(w, t)
    ensures M.Current(w.transfers, t)
    ensures var r := w.transfers.requests[t];
      && r.token == t && r.destination + r.length <= |w.mem|
      && r.destination == w.transfers.records[t.index].destination && r.length == w.transfers.records[t.index].length
  {
    hide M.Apart, M.FreeOk, M.Counted;
    assert M.Current(w.transfers, t);
    assert M.Logged(w.transfers, t.index) && M.RecordOk(w.transfers.cfg, w.transfers.records[t.index]);
  }

  // ----- each event is one the set's runs allow -----

  ghost predicate StepOk(s: Stack, e: Event)
    requires Sized(s)
  {
    && StackOk(Apply(s, e))
    && match Seen(s, e)
       case None => Apply(s, e).issued == s.issued
       case Some(re) => R.Enabled(s.issued, re) && Apply(s, e).issued == R.Apply(s.issued, re)
  }

  /** The set's side of a step follows from its projection; the desk side is what remains. */
  lemma ByProjection(s: Stack, e: Event)
    requires Sized(s) && StackOk(s)
    requires match Seen(s, e)
             case None => Apply(s, e).issued == s.issued
             case Some(re) => R.Enabled(s.issued, re) && Apply(s, e).issued == R.Apply(s.issued, re)
    requires var s' := Apply(s, e);
      DeskOk(s'.issuer, s'.desk, s'.issued.mem, s'.issued.transfers.requests, s'.issued.delivered)
    ensures StepOk(s, e)
  {
    hide R.WorldOk, DeskOk, R.Apply, R.Enabled, Apply, Seen;
    match Seen(s, e)
    case None =>
    case Some(re) => R.EventOk(s.issued, re);
  }

  lemma SubmitAsks(t: M.Transfers, source: ByteRange, destination: u64, answer: bool)
    requires M.Inv(t) && M.Shaped(t)
    ensures var q := M.Submit(t, source, destination, answer).0;
      var asked := Ask(t, source, destination);
      && q.requests == (if asked.Some? && answer then t.requests[asked.value.token := asked.value] else t.requests)
      && (asked.Some? ==> asked.value.token !in t.requests)
  {
    hide M.Apart, M.Counted, M.RecordsOk, M.Taken;
    M.FreeIsFree(t);
  }

  lemma SubmitStepOk(s: Stack, e: Event)
    requires Sized(s) && StackOk(s) && e.Submit?
    ensures StepOk(s, e)
  {
    hide DeskOk, Spaced, SubmitFill, M.Inv, M.Submit, R.MemoryOk, R.OwedOk, Ask;
    var asked := Ask(s.issued.transfers, e.source, e.destination);
    SetSpaced(s.issued);
    SubmitAsks(s.issued.transfers, e.source, e.destination, Submits(s, e.source, e.destination, e.wakes).1);
    if asked.Some? {
      SubmitOk(s.issuer, s.desk, s.issued.mem, s.issued.transfers.requests, s.issued.delivered, asked.value, e.wakes);
    }
    ByProjection(s, e);
  }

  lemma ReleaseStepOk(s: Stack, e: Event)
    requires Sized(s) && StackOk(s) && e.Release? && Enabled(s, e)
    ensures StepOk(s, e)
  {
    hide DeskOk, R.WorldOk;
    ByProjection(s, e);
  }

  lemma BackendOk(s: Stack, e: Event)
    requires Sized(s) && StackOk(s) && e.Backend? && Enabled(s, e)
    ensures StepOk(s, e)
  {
    hide R.WorldOk, DeskOk, Background, Move, Spaced;
    SetSpaced(s.issued);
    BackgroundOk(s.issuer, s.desk, s.issued.mem, s.issued.transfers.requests, s.issued.delivered, e.step);
    ByProjection(s, e);
  }

  /** A worker of the set's performs a request that the set is owed, as it was issued. */
  lemma WorkingOn(s: Stack, i: nat)
    requires StackOk(s) && Working(s, i)
    ensures var x := s.desk.backend.workers[i].item;
      var t := x.request.token;
      && R.Outstanding(s.issued, t) && Wide(s.issued.transfers.requests[t])
           && x.request == FillOf(s.issuer, s.issued.transfers.requests[t])
  {
    hide R.WorldOk, B.WorldOk, Matched;
    var x := s.desk.backend.workers[i].item;
    assert PerformedBy(s.desk.backend, i, x);
    HeldRequest(s.issuer, s.desk.backend, s.issued.transfers.requests, s.issued.delivered, x);
  }

  lemma StoreStepOk(s: Stack, e: Event)
    requires Sized(s) && StackOk(s) && e.Store? && Enabled(s, e)
    ensures StepOk(s, e)
  {
    hide R.WorldOk, DeskOk, Spaced, StoreDesk, Overwrite;
    var x := s.desk.backend.workers[e.worker].item;
    WorkingOn(s, e.worker);
    SetSpaced(s.issued);
    InFlightRange(s.issued, x.request.token);
    StoreOk(s.issuer, s.desk, s.issued.mem, s.issued.transfers.requests, s.issued.delivered, e.worker, e.piece);
    PieceIsWrite(s.issued.mem, x.request.destination, x.request.length, e.piece);
    ByProjection(s, e);
  }

  lemma DeliveredOk(s: Stack, e: Event, be: B.Event, x: BackendModel.WorkItem, result: FillResult)
    requires Sized(s) && StackOk(s) && B.Enabled(s.desk.backend, be) && Mine(s.issuer, x)
    requires (be.Finish? && x == s.desk.backend.workers[be.worker].item) ||
             (be.Cancel? && !s.desk.backend.drain.uncounted && x == s.desk.backend.drain.rest[0])
    requires Seen(s, e) == Some(R.Deliver(x.request.token, result))
    requires R.Enabled(s.issued, R.Deliver(x.request.token, result))
    requires Apply(s, e) == s.(issued := Deliver(s.issued, x.request.token, result),
                               desk := Move(s.desk, s.issued.mem, be))
    ensures StepOk(s, e)
  {
    hide R.WorldOk, Move, Seen, Apply, M.OnComplete;
    DeliveryOk(s.issuer, s.desk, s.issued.mem, s.issued.transfers.requests, s.issued.delivered, be, x);
    HeldRequest(s.issuer, s.desk.backend, s.issued.transfers.requests, s.issued.delivered, x);
    SameRequests(s.issued.transfers, x.request.token, result);
    ByProjection(s, e);
  }

  lemma SameRequests(t: M.Transfers, token: Token, result: FillResult)
    requires M.Shaped(t)
    ensures M.OnComplete(t, token, result).requests == t.requests
  {
  }

  lemma FinishOk(s: Stack, e: Event)
    requires Sized(s) && StackOk(s) && e.Finish? && Enabled(s, e)
    ensures StepOk(s, e)
  {
    hide R.WorldOk, B.WorldOk, Matched, Reported, Move, M.OnComplete;
    var x := s.desk.backend.workers[e.worker].item;
    WorkingOn(s, e.worker);
    ReportedIsHonest(s.issuer, s.desk, s.issued.mem, s.file, s.issued.source, e.worker,
                     s.issuer.base + x.request.destination, e.result);
    DeliveredOk(s, e, B.Finish(e.worker, e.result), x, e.result);
  }

  lemma CancelOk(s: Stack, e: Event)
    requires Sized(s) && StackOk(s) && e.Cancel? && Enabled(s, e)
    ensures StepOk(s, e)
  {
    hide R.WorldOk, B.WorldOk, Matched, Move, M.OnComplete;
    DeliveredOk(s, e, B.Cancel, s.desk.backend.drain.rest[0], FillResult(Cancelled, 0));
  }

  lemma StackStep(s: Stack, e: Event)
    requires Sized(s) && StackOk(s)
    ensures StepOk(s, e)
  {
    hide StackOk, R.WorldOk;
    if Enabled(s, e) {
      match e
      case Submit(_, _, _) => SubmitStepOk(s, e);
      case Release(_) => ReleaseStepOk(s, e);
      case Backend(_) => BackendOk(s, e);
      case Store(_, _) => StoreStepOk(s, e);
      case Finish(_, _) => FinishOk(s, e);
      case Cancel => CancelOk(s, e);
    }
  }

  // ----- runs -----

  ghost function After(s: Stack, es: seq<Event>): (s': Stack)
    requires Sized(s)
    ensures Sized(s') && s'.issuer == s.issuer && s'.file == s.file && |s'.desk.ledgers| == |s.desk.ledgers|
  {
    if es == [] then s else Apply(After(s, es[..|es| - 1]), es[|es| - 1])
  }

  ghost function SeenRun(s: Stack, es: seq<Event>): seq<R.Event>
    requires Sized(s)
  {
    if es == [] then []
    else
      var last := Seen(After(s, es[..|es| - 1]), es[|es| - 1]);
      SeenRun(s, es[..|es| - 1]) + if last.Some? then [last.value] else []
  }

  lemma {:induction false} SamePrefix(w: R.World, es: seq<R.Event>, more: seq<R.Event>, k: nat)
    requires M.Shaped(w.transfers) && k <= |es|
    ensures R.After(w, es + more, k) == R.After(w, es, k)
  {
    hide R.Apply;
    if k > 0 {
      SamePrefix(w, es, more, k - 1);
    }
  }

  /** Every run of the product is, for the set, a run of TransferRuns; so a claim that is ok holds the bytes it
      asked for, until its release, with all workers running at once. */
  lemma {:induction false} RunProjects(s: Stack, es: seq<Event>)
    requires Sized(s) && StackOk(s)
    ensures StackOk(After(s, es)) && After(s, es).issued == R.After(s.issued, SeenRun(s, es), |SeenRun(s, es)|)
  {
    hide StackOk, Apply, Seen, R.Apply;
    if es != [] {
      var before := After(s, es[..|es| - 1]);
      RunProjects(s, es[..|es| - 1]);
      StackStep(before, es[|es| - 1]);
      var seen := SeenRun(s, es[..|es| - 1]);
      var last := Seen(before, es[|es| - 1]);
      if last.Some? {
        SamePrefix(s.issued, seen, [last.value], |seen|);
      } else {
        assert seen + [] == seen;
      }
    }
  }

  /** A new set over a new backend. */
  function Created(issuer: Issuer, file: seq<byte>, cfg: M.SetConfig, mem: seq<byte>, source: seq<byte>,
                   capacity: nat, sources: nat, workers: nat): (s: Stack)
    requires cfg.Valid()
    ensures Sized(s)
  {
    Stack(issuer, file, R.World(M.Create(cfg), mem, source, {}),
          Desk(B.Create(capacity, sources, workers), seq(workers, _ => Ledger([], []))))
  }

  lemma CreatedOk(issuer: Issuer, file: seq<byte>, cfg: M.SetConfig, mem: seq<byte>, source: seq<byte>,
                  capacity: nat, sources: nat, workers: nat)
    requires cfg.Valid() && |mem| == cfg.destinationBytes && |source| == cfg.sourceBytes && file <= source
    ensures var s := Created(issuer, file, cfg, mem, source, capacity, sources, workers);
      Sized(s) && StackOk(s) && InFile(s)
  {
    hide M.Inv, B.WorldOk, R.WorldOk;
    R.CreateOk(cfg, mem, source);
    M.CreateInv(cfg);
    B.CreateOk(capacity, sources, workers);
  }

  // ----- what claims show -----

  /** The source range of every completed transfer ends inside the real file. */
  predicate InFile(s: Stack) {
    forall r :: 0 <= r < |s.issued.transfers.records| && s.issued.transfers.records[r].state.Completed? ==>
        RangeInFile(s, r)
  }

  predicate RangeInFile(s: Stack, r: nat)
    requires r < |s.issued.transfers.records|
  {
    var token := Token(r, s.issued.transfers.records[r].generation);
    && token in s.issued.transfers.requests
    && s.issued.transfers.requests[token].source + s.issued.transfers.requests[token].length <= |s.file|
  }

  /** A record turns completed only by the delivery of its own transfer, and a complete one. */
  lemma TurnsCompleted(w: R.World, e: R.Event, r: nat)
    requires R.WorldOk(w) && M.Shaped(w.transfers) && R.Enabled(w, e) && r < |w.transfers.records|
    ensures var t := R.Apply(w, e).transfers;
      && r < |t.records|
      && (t.records[r].state.Completed? ==>
            || (w.transfers.records[r].state.Completed? && t.records[r].generation == w.transfers.records[r].generation)
            || (e.Deliver? && e.token == Token(r, t.records[r].generation) && M.Current(w.transfers, e.token)
                && ClassifyFill(e.result, w.transfers.records[r].length) == Ok))
  {
    hide M.Apart, M.Counted, M.LogOk, M.FreeOk;
  }

  lemma InFileStep(s: Stack, e: Event)
    requires Sized(s) && StackOk(s) && InFile(s)
    ensures InFile(Apply(s, e))
  {
    hide StackOk, R.WorldOk, Apply, Seen, Enabled;
    StackStep(s, e);
    SetOk(s);
    match Seen(s, e)
    case None =>
    case Some(re) =>
      forall r | 0 <= r < |Apply(s, e).issued.transfers.records|
          && Apply(s, e).issued.transfers.records[r].state.Completed?
        ensures RangeInFile(Apply(s, e), r) {
        RecordInFile(s, e, re, r);
      }
  }

  lemma SetOk(s: Stack)
    requires StackOk(s)
    ensures Sized(s) && R.WorldOk(s.issued)
  {
  }

  lemma RecordInFile(s: Stack, e: Event, re: R.Event, r: nat)
    requires Sized(s) && StackOk(s) && InFile(s) && Seen(s, e) == Some(re) && StepOk(s, e)
    requires r < |Apply(s, e).issued.transfers.records| && Apply(s, e).issued.transfers.records[r].state.Completed?
    ensures RangeInFile(Apply(s, e), r)
  {
    hide StackOk, R.WorldOk, Apply, Seen, Enabled, R.Apply;
    SetOk(s);
    SameRecords(s.issued, re);
    TurnsCompleted(s.issued, re, r);
    var token := Token(r, Apply(s, e).issued.transfers.records[r].generation);
    if s.issued.transfers.records[r].state.Completed? && token.generation == s.issued.transfers.records[r].generation {
      assert RangeInFile(s, r);
      R.RequestsKept(s.issued, re, token);
    } else {
      CompleteInFile(s, e, re, r);
      R.RequestsKept(s.issued, re, token);
    }
  }

  lemma SameRecords(w: R.World, e: R.Event)
    requires M.Shaped(w.transfers)
    ensures |R.Apply(w, e).transfers.records| == |w.transfers.records|
  {
  }

  /** A complete delivery comes from a worker that found all its bytes in the file. */
  lemma CompleteInFile(s: Stack, e: Event, re: R.Event, r: nat)
    requires Sized(s) && StackOk(s) && Seen(s, e) == Some(re) && re.Deliver? && r < |s.issued.transfers.records|
    requires M.Current(s.issued.transfers, re.token) && re.token.index == r
    requires ClassifyFill(re.result, s.issued.transfers.records[r].length) == Ok
    ensures re.token in s.issued.transfers.requests
    ensures s.issued.transfers.requests[re.token].source + s.issued.transfers.requests[re.token].length <= |s.file|
  {
    hide R.WorldOk, DeskOk, Lays;
    DeliveredByWorker(s, e, re);
    var x := s.desk.backend.workers[e.worker].item;
    WorkingOn(s, e.worker);
    InFlightRange(s.issued, re.token);
    LengthPositive(s.issued, re.token);
  }

  lemma DeliveredByWorker(s: Stack, e: Event, re: R.Event)
    requires Sized(s) && Seen(s, e) == Some(re) && re.Deliver? && re.result.status == Ok
    ensures e.Finish? && Enabled(s, e) && re.result == e.result
    ensures re.token == s.desk.backend.workers[e.worker].item.request.token
  {
    hide Reported;
  }

  lemma LengthPositive(w: R.World, t: Token)
    requires R.WorldOk(w) && M.Current(w.transfers, t)
    ensures 0 < w.transfers.records[t.index].length
  {
    hide M.Apart, M.FreeOk, M.Counted, M.LogOk;
    assert M.RecordOk(w.transfers.cfg, w.transfers.records[t.index]);
  }

  lemma {:induction false} InFileRun(s: Stack, es: seq<Event>)
    requires Sized(s) && StackOk(s) && InFile(s)
    ensures StackOk(After(s, es)) && InFile(After(s, es))
  {
    hide StackOk, InFile, Apply;
    RunProjects(s, es);
    if es != [] {
      InFileRun(s, es[..|es| - 1]);
      InFileStep(After(s, es[..|es| - 1]), es[|es| - 1]);
    }
  }

  /** After any run, a claim whose status is ok shows what was asked for: its request's source range ends inside
      the real file, and its bytes are the file's own. */
  lemma ClaimedBytes(issuer: Issuer, file: seq<byte>, cfg: M.SetConfig, mem: seq<byte>, source: seq<byte>,
                     capacity: nat, sources: nat, workers: nat,
                     es: seq<Event>, r: nat)
    requires cfg.Valid() && |mem| == cfg.destinationBytes && |source| == cfg.sourceBytes && file <= source
    requires var s := Created(issuer, file, cfg, mem, source, capacity, sources, workers);
      && r < |After(s, es).issued.transfers.records| && After(s, es).issued.transfers.records[r].held
      && M.ClaimStatus(After(s, es).issued.transfers, r, false) == Ok
    ensures var w := After(Created(issuer, file, cfg, mem, source, capacity, sources, workers), es).issued;
      var token := Token(r, w.transfers.records[r].generation);
      && token in w.transfers.requests
      && var request := w.transfers.requests[token];
         && request.source + request.length <= |file|
         && R.RangeBytes(w, r) == file[request.source..request.source + request.length]
  {
    hide R.RangeBytes, M.Inv, R.WorldOk, DeskOk, Apply, SeenRun, After;
    CreatedOk(issuer, file, cfg, mem, source, capacity, sources, workers);
    var s := Created(issuer, file, cfg, mem, source, capacity, sources, workers);
    InFileRun(s, es);
    var now := After(s, es);
    R.OkWhenHeld(now.issued, r);
    OkIsCompleted(now.issued, r);
    assert RangeInFile(now, r);
    assert now.issued.source[..|file|] == file;
  }

  lemma OkIsCompleted(w: R.World, r: nat)
    requires R.WorldOk(w) && r < |w.transfers.records| && w.transfers.records[r].held
    requires M.ClaimStatus(w.transfers, r, false) == Ok
    ensures w.transfers.records[r].state.Completed?
  {
    R.HeldInUse(w.transfers, r);
    R.OkMeansSource(w, r);
  }

  /** Once the first shutdown has returned, no transfer is in flight. */
  lemma ShutdownSettles(s: Stack)
    requires Sized(s) && StackOk(s) && s.desk.backend.drain.Returned?
    ensures s.issued.transfers.counters.inFlight == 0
  {
    hide B.WorldOk, Has, R.MemoryOk;
    SetInv(s.issued);
    forall r | 0 <= r < |s.issued.transfers.records| ensures M.SubmittedWeight(s.issued.transfers.records[r]) == 0 {
      if s.issued.transfers.records[r].state.Submitted? {
        var t := Token(r, s.issued.transfers.records[r].generation);
        assert M.Current(s.issued.transfers, t) && R.Outstanding(s.issued, t);
        assert Undelivered(s.issued.transfers.requests, s.issued.delivered, t) && HasToken(s.issuer, s.desk.backend, t);
        NothingHeld(s.desk.backend);
      }
    }
    Sums.SumBounds(s.issued.transfers.records, M.SubmittedWeight);
  }

  lemma SetInv(w: R.World)
    requires R.WorldOk(w)
    ensures M.Counted(w.transfers)
  {
  }
}
