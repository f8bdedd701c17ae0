/** A SlotPool over LocalFileBackend, with all the backend's workers at once. The state is the product of a
    world of PoolRuns and one of BackendRuns: the pool's submits are answered by the backend's queue, its
    deliveries are those of the backend's workers and of shutdown, and memory changes only by the pieces that
    workers store, in any order. Every run of the product is a run of the pool with a backend that keeps the
    contract. */
module Stack {
  import opened Transfer
  import opened Memory
  import opened PoolState
  import opened ChunkTiling
  import opened Service
  import opened DirectRead
  import opened Jobs
  import BackendModel
  import B = BackendRuns
  import M = PoolModel
  import I = PoolInvariant
  import S = PoolSteps
  import P = PoolRuns

  /** `file` is what the registered file holds: the beginning of the source the pool was created for. */
  datatype Stack = Stack(issuer: Issuer, file: seq<byte>, pool: P.World, desk: Desk)

  /** While a call holds the pool's lock, the backend moves on before each chunk; then a submit may wake a
      worker. Stores and deliveries to the pool come before or after the call: a store touches nothing the call
      does, and a delivery needs the lock. */
  datatype Turn = Turn(between: seq<B.Event>, wakes: nat)

  datatype Event =
    | Caller(section: P.Event)
    | Prefetch(ranges: seq<ByteRange>, admission: AdmissionClass, turns: seq<Turn>)
    | ResolveBegin(ranges: seq<ByteRange>, room: nat, turns: seq<Turn>)
    | Backend(step: B.Event)
    | Store(worker: nat, piece: Piece)
    | Finish(worker: nat, result: FillResult)
    | Cancel

  predicate Sized(s: Stack) { M.Shaped(s.pool.pool) && |s.desk.ledgers| == |s.desk.backend.workers| }

  // ----- a call and its submits -----

  /** The backend's own steps of one turn. */
  function Between(issuer: Issuer, d: Desk, mem: seq<byte>, es: seq<B.Event>, k: nat): (d': Desk)
    requires |d.ledgers| == |d.backend.workers| && k <= |es|
    ensures |d'.ledgers| == |d'.backend.workers| == |d.ledgers|
  {
    if k == 0 then d
    else
      var before := Between(issuer, d, mem, es, k - 1);
      if Background(issuer, before.backend, es[k - 1]) then Move(before, mem, es[k - 1]) else before
  }

  /** The backend after the first `k` chunks of a call, and what it answered. */
  function Fold(issuer: Issuer, d: Desk, mem: seq<byte>, j: Job, turns: seq<Turn>, k: nat): (r: (Desk, seq<bool>))
    requires |d.ledgers| == |d.backend.workers| && JobShaped(j) && k <= |j.segments|
    ensures |r.0.ledgers| == |r.0.backend.workers| == |d.ledgers| && |r.1| == k
  {
    if k == 0 then (d, [])
    else
      var (before, answers) := Fold(issuer, d, mem, j, turns, k - 1);
      var turn := if k - 1 < |turns| then turns[k - 1] else Turn([], 0);
      var moved := Between(issuer, before, mem, turn.between, |turn.between|);
      var asked := Ask(j, answers);
      if asked.None? then (moved, answers + [false])
      else
        AskFits(j, answers);
        (SubmitFill(moved, mem, issuer, asked.value, turn.wakes), answers + [BackendModel.Accepts(moved.backend.core)])
  }

  /** What a prefetch submits: nothing if it is refused. */
  function HintJob(p: Pool, ranges: seq<ByteRange>, admission: AdmissionClass): (j: Option<Job>)
    requires M.Shaped(p)
    ensures j.Some? ==> JobShaped(j.value)
  {
    var r := M.FirstFreeRecord(p.tickets, 0);
    if CheckBatch(p.cfg, ranges).status != Ok || r == |p.tickets| then None
    else
      M.BatchSegments(p.cfg, ranges);
      Some(Hint(M.OpenRecord(p, r, CheckBatch(p.cfg, ranges).chunks), r, M.Batch(p.cfg, ranges), admission))
  }

  function TakeJob(p: Pool, ranges: seq<ByteRange>, room: nat): (j: Option<Job>)
    requires M.Shaped(p)
    ensures j.Some? ==> JobShaped(j.value)
  {
    if CheckBatch(p.cfg, ranges).status != Ok || room < CheckBatch(p.cfg, ranges).chunks then None
    else Some(Take(p, M.Batch(p.cfg, ranges)))
  }

  function Submits(s: Stack, j: Option<Job>, turns: seq<Turn>): (r: (Desk, seq<bool>))
    requires Sized(s) && (j.Some? ==> JobShaped(j.value))
    ensures |r.0.ledgers| == |r.0.backend.workers| == |s.desk.ledgers|
  {
    if j.None? then (s.desk, []) else Fold(s.issuer, s.desk, s.pool.mem, j.value, turns, |j.value.segments|)
  }

  // ----- the steps -----

  /** A caller's critical section that submits nothing. */
  predicate Quiet(e: P.Event) { e.DiscardTicket? || e.ResolveFinish? || e.TryResolve? || e.Release? || e.WontNeed? }

  predicate Working(s: Stack, i: nat) {
    i < |s.desk.backend.workers| && s.desk.backend.workers[i].Performing?
        && Mine(s.issuer, s.desk.backend.workers[i].item)
  }

  /** A worker delivers a result that what it has stored allows; shutdown delivers a cancellation; a store stays
      inside its destination. */
  ghost predicate Enabled(s: Stack, e: Event)
    requires Sized(s)
  {
    match e
    case Caller(pe) => Quiet(pe) && P.Enabled(s.pool, pe)
    case Prefetch(_, _, _) => true
    case ResolveBegin(_, _, _) => true
    case Backend(be) => Background(s.issuer, s.desk.backend, be)
    case Store(i, piece) =>
      && Working(s, i) && Reads(s.issuer, s.desk.backend.workers[i].item)
      && var r := s.desk.backend.workers[i].item.request;
         piece.at + |piece.bytes| <= r.length && r.destination + r.length <= |s.pool.mem|
    case Finish(i, result) =>
      && Working(s, i)
      && var x := s.desk.backend.workers[i].item;
         Reported(s.file, x, s.issuer.base + x.request.destination, s.desk.ledgers[i].pieces, result)
    case Cancel =>
      var drain := s.desk.backend.drain;
      drain.Draining? && !drain.uncounted && drain.rest != [] && Mine(s.issuer, drain.rest[0])
  }

  /** The pool's side of a delivery. */
  function Deliver(w: P.World, t: Token, result: FillResult): (w': P.World)
    requires M.Shaped(w.pool)
    ensures M.Shaped(w'.pool)
  {
    w.(pool := M.OnComplete(w.pool, t, result), delivered := w.delivered + {t})
  }

  ghost function Apply(s: Stack, e: Event): (s': Stack)
    requires Sized(s)
    ensures Sized(s') && s'.issuer == s.issuer && s'.file == s.file && |s'.desk.ledgers| == |s.desk.ledgers|
  {
    if !Enabled(s, e) then s
    else match e
      case Caller(pe) => s.(pool := P.Apply(s.pool, pe))
      case Prefetch(ranges, admission, turns) =>
        var (desk, answers) := Submits(s, HintJob(s.pool.pool, ranges, admission), turns);
        s.(desk := desk, pool := s.pool.(pool := M.Prefetch(s.pool.pool, ranges, admission, answers).0))
      case ResolveBegin(ranges, room, turns) =>
        var (desk, answers) := Submits(s, TakeJob(s.pool.pool, ranges, room), turns);
        var b := M.ResolveBegin(s.pool.pool, ranges, room, answers);
        s.(desk := desk,
           pool := s.pool.(pool := b.pool,
                           waiting := if b.failure == Ok then s.pool.waiting + [b.leases] else s.pool.waiting))
      case Backend(be) => s.(desk := Move(s.desk, s.pool.mem, be))
      case Store(i, piece) =>
        s.(pool := s.pool.(mem := Overwrite(s.pool.mem,
                                            s.desk.backend.workers[i].item.request.destination + piece.at,
                                                piece.bytes)),
           desk := StoreDesk(s.desk, i, piece))
      case Finish(i, result) =>
        s.(pool := Deliver(s.pool, s.desk.backend.workers[i].item.request.token, result),
           desk := Move(s.desk, s.pool.mem, B.Finish(i, result)))
      case Cancel =>
        s.(pool := Deliver(s.pool, s.desk.backend.drain.rest[0].request.token, FillResult(Cancelled, 0)),
           desk := Move(s.desk, s.pool.mem, B.Cancel))
  }

  /** What the pool sees of an event: a call with the answers it got, a write, a delivery, or nothing. */
  ghost function Seen(s: Stack, e: Event): Option<P.Event>
    requires Sized(s)
  {
    if !Enabled(s, e) then None
    else match e
      case Caller(pe) => Some(pe)
      case Prefetch(ranges, admission, turns) =>
        Some(P.Prefetch(ranges, admission, Submits(s, HintJob(s.pool.pool, ranges, admission), turns).1))
      case ResolveBegin(ranges, room, turns) =>
        Some(P.ResolveBegin(ranges, room, Submits(s, TakeJob(s.pool.pool, ranges, room), turns).1))
      case Backend(_) => None
      case Store(i, piece) =>
        var r := s.desk.backend.workers[i].item.request;
        Some(P.Write(r.token, Part(Overwrite(s.pool.mem, r.destination + piece.at, piece.bytes), r.destination,
                                   r.length)))
      case Finish(i, result) => Some(P.Deliver(s.desk.backend.workers[i].item.request.token, result))
      case Cancel => Some(P.Deliver(s.desk.backend.drain.rest[0].request.token, FillResult(Cancelled, 0)))
  }

  // ----- what every run keeps -----

  ghost predicate StackOk(s: Stack) {
    && Sized(s) && P.WorldOk(s.pool) && s.file <= s.pool.source
    && DeskOk(s.issuer, s.desk, s.pool.mem, s.pool.pool.requests, s.pool.delivered)
  }

  /** What a pool is owed has slots, and so destinations, of its own. */
  lemma PoolSpaced(p: Pool, w: P.World)
    requires I.Inv(p) && M.Shaped(p) && P.OwedOk(w.(pool := p)) && |w.mem| == p.cfg.slotBytes * p.cfg.numSlots
    ensures Spaced(p.requests, w.delivered, w.mem) && w.delivered <= p.requests.Keys
  {
    hide I.Inv;
    forall t | Undelivered(p.requests, w.delivered, t)
      ensures p.requests[t].destination + p.requests[t].length <= |w.mem| {
      OwedRegion(p, w, t);
      SlotRegion(p.cfg, t.index);
    }
    forall t, u | Undelivered(p.requests, w.delivered, t) && Undelivered(p.requests, w.delivered, u) && t != u
      ensures Separate(p.requests[t], p.requests[u]) {
      OwedRegion(p, w, t);
      OwedRegion(p, w, u);
      if t.index < u.index {
        SlotsApart(p.cfg, t.index, u.index);
      } else {
        SlotsApart(p.cfg, u.index, t.index);
      }
    }
  }

  lemma OwedRegion(p: Pool, w: P.World, t: Token)
    requires I.Inv(p) && M.Shaped(p) && P.OwedOk(w.(pool := p)) && Undelivered(p.requests, w.delivered, t)
    ensures t.index < |p.slots| && p.slots[t.index].generation == t.generation
    ensures p.requests[t].destination == t.index * p.cfg.slotBytes && p.requests[t].length <= p.cfg.slotBytes
  {
    assert P.Outstanding(w.(pool := p), t) && M.Current(p, t);
    assert I.Logged(p, t.index);
  }

  lemma {:induction false} BetweenOk(issuer: Issuer, d: Desk, mem: seq<byte>, requests: map<Token, Request>,
                                     delivered: set<Token>, es: seq<B.Event>, k: nat)
    requires |d.ledgers| == |d.backend.workers| && k <= |es|
    requires DeskOk(issuer, d, mem, requests, delivered) && Spaced(requests, delivered, mem)
    ensures DeskOk(issuer, Between(issuer, d, mem, es, k), mem, requests, delivered)
  {
    hide DeskOk, Spaced, Background, Move;
    if k > 0 {
      BetweenOk(issuer, d, mem, requests, delivered, es, k - 1);
      var before := Between(issuer, d, mem, es, k - 1);
      if Background(issuer, before.backend, es[k - 1]) {
        BackgroundOk(issuer, before, mem, requests, delivered, es[k - 1]);
      }
    }
  }

  /** Over the chunks of a call, what the backend holds stays what the pool is owed. */
  lemma {:induction false} FoldOk(w: P.World, issuer: Issuer, d: Desk, j: Job, turns: seq<Turn>, k: nat)
    requires |d.ledgers| == |d.backend.workers| && JobShaped(j) && JobOk(j) && k <= |j.segments|
    requires P.OwedOk(w.(pool := j.start)) && |w.mem| == j.start.cfg.slotBytes * j.start.cfg.numSlots
    requires DeskOk(issuer, d, w.mem, j.start.requests, w.delivered)
    ensures var (d', answers) := Fold(issuer, d, w.mem, j, turns, k);
      DeskOk(issuer, d', w.mem, PoolAt(j, answers).requests, w.delivered)
  {
    hide DeskOk, JobOk, JobShaped, Between, SubmitFill, P.OwedOk, Ask, Spaced, BackendModel.Accepts;
    if k == 0 {
      StartPool(j);
    } else {
      FoldOk(w, issuer, d, j, turns, k - 1);
      var (before, answers) := Fold(issuer, d, w.mem, j, turns, k - 1);
      var turn := if k - 1 < |turns| then turns[k - 1] else Turn([], 0);
      var p := PoolAt(j, answers);
      MidPool(w, j, answers);
      BetweenOk(issuer, before, w.mem, p.requests, w.delivered, turn.between, |turn.between|);
      var moved := Between(issuer, before, w.mem, turn.between, |turn.between|);
      var asked := Ask(j, answers);
      AskStep(j, answers, asked.Some? && BackendModel.Accepts(moved.backend.core));
      if asked.Some? {
        AskFits(j, answers);
        AskIsNew(j, answers);
        AskToken(j, answers);
        SubmitOk(issuer, moved, w.mem, p.requests, w.delivered, asked.value, turn.wakes);
      }
    }
  }

  lemma StartPool(j: Job)
    requires JobShaped(j)
    ensures PoolAt(j, []) == j.start
  {
  }

  lemma AskToken(j: Job, answers: seq<bool>)
    requires JobShaped(j) && |answers| < |j.segments| && Ask(j, answers).Some?
    ensures var r := Ask(j, answers).value; Wide(r)
  {
    AskFits(j, answers);
  }

  lemma MidPool(w: P.World, j: Job, answers: seq<bool>)
    requires JobShaped(j) && JobOk(j) && |answers| <= |j.segments|
    requires P.OwedOk(w.(pool := j.start)) && |w.mem| == j.start.cfg.slotBytes * j.start.cfg.numSlots
    ensures var p := PoolAt(j, answers);
      Spaced(p.requests, w.delivered, w.mem) && w.delivered <= p.requests.Keys
  {
    hide P.OwedOk, I.Inv, S.Advances, Spaced, PoolAt;
    JobAdvances(j, answers);
    StartInv(j);
    P.OwedForward(w.(pool := j.start), PoolAt(j, answers));
    assert w.(pool := j.start).(pool := PoolAt(j, answers)) == w.(pool := PoolAt(j, answers));
    PoolSpaced(PoolAt(j, answers), w);
  }

  lemma StartInv(j: Job)
    requires JobShaped(j) && JobOk(j)
    ensures I.Inv(j.start)
  {
  }

  // ----- each event is one the pool's runs allow -----

  /** The event is what the pool sees of it: nothing, or one event that is enabled for it. */
  ghost predicate Projects(s: Stack, e: Event)
    requires Sized(s)
  {
    match Seen(s, e)
    case None => Apply(s, e).pool == s.pool
    case Some(pe) => P.Enabled(s.pool, pe) && Apply(s, e).pool == P.Apply(s.pool, pe)
  }

  ghost predicate StepOk(s: Stack, e: Event)
    requires Sized(s)
  {
    Projects(s, e) && StackOk(Apply(s, e))
  }

  /** The pool side of a step follows from its projection; the desk side is what remains. */
  lemma ByProjection(s: Stack, e: Event)
    requires Sized(s) && StackOk(s) && Projects(s, e)
    requires var s' := Apply(s, e);
      DeskOk(s'.issuer, s'.desk, s'.pool.mem, s'.pool.pool.requests, s'.pool.delivered)
    ensures StepOk(s, e)
  {
    hide P.WorldOk, DeskOk, P.Apply, P.Enabled, Apply, Seen;
    PoolOk(s);
    match Seen(s, e)
    case None =>
    case Some(pe) =>
      P.EventOk(s.pool, pe);
      SourceKept(s.pool, pe);
  }

  lemma PoolOk(s: Stack)
    requires StackOk(s)
    ensures P.WorldOk(s.pool) && M.Shaped(s.pool.pool) && s.file <= s.pool.source
    ensures DeskOk(s.issuer, s.desk, s.pool.mem, s.pool.pool.requests, s.pool.delivered)
  {
  }

  lemma SourceKept(w: P.World, e: P.Event)
    requires M.Shaped(w.pool)
    ensures P.Apply(w, e).source == w.source
  {
    hide P.Enabled, M.Prefetch, M.DiscardTicket, M.ResolveBegin, M.ResolveFinish, M.TryResolve, M.WontNeed,
         M.OnComplete, M.Unpin;
  }

  /** A section that submits nothing changes neither memory nor what is owed. */
  lemma QuietKeeps(w: P.World, e: P.Event)
    requires P.WorldOk(w) && M.Shaped(w.pool) && Quiet(e)
    ensures var w' := P.Apply(w, e);
      w'.mem == w.mem && w'.delivered == w.delivered && w'.pool.requests == w.pool.requests
  {
    hide P.WorldOk, P.Enabled, M.ResolveFinish, M.TryResolve, M.UnpinAll, M.HitUpTo, M.Shaped;
    if P.Enabled(w, e) {
      match e
      case ResolveFinish(c) => FinishRequests(w, c);
      case TryResolve(ranges, room) => TryRequests(w.pool, ranges, room);
      case _ =>
    }
  }

  lemma FinishRequests(w: P.World, c: nat)
    requires P.WorldOk(w) && M.Shaped(w.pool) && P.Enabled(w, P.ResolveFinish(c))
    ensures M.ResolveFinish(w.pool, w.waiting[c]).pool.requests == w.pool.requests
  {
    UnpinRequests(w.pool, w.waiting[c], |w.waiting[c]|);
  }

  lemma {:induction false} UnpinRequests(p: Pool, leases: seq<Lease>, k: nat)
    requires M.Shaped(p) && M.LeasesInPool(p, leases) && k <= |leases|
    ensures M.UnpinUpTo(p, leases, k).requests == p.requests
  {
    if k > 0 {
      UnpinRequests(p, leases, k - 1);
    }
  }

  lemma TryRequests(p: Pool, ranges: seq<ByteRange>, room: nat)
    requires M.Shaped(p)
    ensures M.TryResolve(p, ranges, room).pool.requests == p.requests
  {
    hide M.HitUpTo, M.Batch, CheckBatch, M.AllReady;
    if CheckBatch(p.cfg, ranges).status == Ok && CheckBatch(p.cfg, ranges).chunks <= room {
      var segments := M.Batch(p.cfg, ranges);
      if M.AllReady(p, segments) {
        HitRequests(p, segments, |segments|);
      }
    }
  }

  lemma {:induction false} HitRequests(p: Pool, segments: seq<Segment>, k: nat)
    requires M.Shaped(p) && k <= |segments| && M.AllSegmentsOk(p.cfg, segments) && M.AllReady(p, segments)
    ensures M.HitUpTo(p, segments, k).pool.requests == p.requests
  {
    hide M.AllReady, M.AllSegmentsOk, LeaseFor;
    if k > 0 {
      HitRequests(p, segments, k - 1);
      S.SegmentInSource(p.cfg, segments, k - 1);
      ReadyHit(p, segments, k - 1);
    }
  }

  lemma ReadyHit(p: Pool, segments: seq<Segment>, k: nat)
    requires k < |segments| && M.AllReady(p, segments)
    ensures Lookup(p.slots, segments[k].chunk) != NONE
  {
  }

  lemma CallerOk(s: Stack, e: Event)
    requires Sized(s) && StackOk(s) && e.Caller? && Enabled(s, e)
    ensures StepOk(s, e)
  {
    hide P.WorldOk, DeskOk, P.Apply, P.Enabled;
    QuietKeeps(s.pool, e.section);
    ByProjection(s, e);
  }

  lemma BackendOk(s: Stack, e: Event)
    requires Sized(s) && StackOk(s) && e.Backend? && Enabled(s, e)
    ensures StepOk(s, e)
  {
    hide P.WorldOk, DeskOk, Background, Move, Spaced;
    WorldSpaced(s.pool);
    BackgroundOk(s.issuer, s.desk, s.pool.mem, s.pool.pool.requests, s.pool.delivered, e.step);
    ByProjection(s, e);
  }

  lemma WorldSpaced(w: P.World)
    requires P.WorldOk(w) && M.Shaped(w.pool)
    ensures Spaced(w.pool.requests, w.delivered, w.mem) && w.delivered <= w.pool.requests.Keys
  {
    hide I.Inv, Spaced, P.OwedOk, P.PinsMatch, P.LeasesOk;
    assert w.(pool := w.pool) == w;
    PoolSpaced(w.pool, w);
  }

  // ----- calls -----

  lemma HintFold(s: Stack, ranges: seq<ByteRange>, admission: AdmissionClass, turns: seq<Turn>)
    requires Sized(s) && StackOk(s)
    ensures var (desk, answers) := Submits(s, HintJob(s.pool.pool, ranges, admission), turns);
      DeskOk(s.issuer, desk, s.pool.mem, M.Prefetch(s.pool.pool, ranges, admission, answers).0.requests,
             s.pool.delivered)
  {
    hide DeskOk, Fold, P.WorldOk, M.PrefetchUpTo, CheckBatch, M.Batch, JobShaped, JobOk, P.OwedOk;
    var p := s.pool.pool;
    var j := HintJob(p, ranges, admission);
    if j.Some? {
      HintJobOk(s.pool, ranges, admission);
      FoldOk(s.pool, s.issuer, s.desk, j.value, turns, |j.value.segments|);
      M.BatchSegments(p.cfg, ranges);
    }
  }

  lemma HintJobOk(w: P.World, ranges: seq<ByteRange>, admission: AdmissionClass)
    requires P.WorldOk(w) && M.Shaped(w.pool) && HintJob(w.pool, ranges, admission).Some?
    ensures var j := HintJob(w.pool, ranges, admission).value;
      && JobOk(j) && P.OwedOk(w.(pool := j.start)) && j.start.requests == w.pool.requests
      && |w.mem| == j.start.cfg.slotBytes * j.start.cfg.numSlots
  {
    hide I.Inv, I.PendingLinked, I.Midway, CheckBatch, P.PinsMatch, P.LeasesOk, M.AllSegmentsOk;
    var r := M.FirstFreeRecord(w.pool.tickets, 0);
    M.BatchSegments(w.pool.cfg, ranges);
    S.OpenRecordInv(w.pool, r, CheckBatch(w.pool.cfg, ranges).chunks);
    OwedSame(w, M.OpenRecord(w.pool, r, CheckBatch(w.pool.cfg, ranges).chunks));
  }

  lemma OwedSame(w: P.World, p: Pool)
    requires P.OwedOk(w) && p.requests == w.pool.requests && p.slots == w.pool.slots
    ensures P.OwedOk(w.(pool := p))
  {
    forall t ensures P.Outstanding(w.(pool := p), t) <==> M.Current(p, t) {
      assert P.Outstanding(w, t) <==> M.Current(w.pool, t);
    }
  }

  lemma PrefetchOk(s: Stack, e: Event)
    requires Sized(s) && StackOk(s) && e.Prefetch?
    ensures StepOk(s, e)
  {
    hide P.WorldOk, DeskOk, Submits, M.Prefetch, HintJob;
    HintFold(s, e.ranges, e.admission, e.turns);
    ByProjection(s, e);
  }

  lemma TakeFold(s: Stack, ranges: seq<ByteRange>, room: nat, turns: seq<Turn>)
    requires Sized(s) && StackOk(s)
    ensures var (desk, answers) := Submits(s, TakeJob(s.pool.pool, ranges, room), turns);
      DeskOk(s.issuer, desk, s.pool.mem, M.ResolveBegin(s.pool.pool, ranges, room, answers).pool.requests,
             s.pool.delivered)
  {
    hide DeskOk, Fold, P.WorldOk, M.ResolveUpTo, CheckBatch, M.Batch, JobShaped, JobOk, P.OwedOk, M.UnpinUpTo;
    var p := s.pool.pool;
    var j := TakeJob(p, ranges, room);
    if j.Some? {
      TakeJobOk(s.pool, ranges, room);
      FoldOk(s.pool, s.issuer, s.desk, j.value, turns, |j.value.segments|);
      var answers := Fold(s.issuer, s.desk, s.pool.mem, j.value, turns, |j.value.segments|).1;
      var b := M.ResolveUpTo(p, j.value.segments, answers, |answers|);
      UnpinRequests(b.pool, b.leases, |b.leases|);
    }
  }

  lemma TakeJobOk(w: P.World, ranges: seq<ByteRange>, room: nat)
    requires P.WorldOk(w) && M.Shaped(w.pool) && TakeJob(w.pool, ranges, room).Some?
    ensures var j := TakeJob(w.pool, ranges, room).value;
      && JobOk(j) && P.OwedOk(w.(pool := j.start)) && j.start == w.pool
      && |w.mem| == j.start.cfg.slotBytes * j.start.cfg.numSlots
  {
    hide I.Inv, I.PendingLinked, CheckBatch, P.PinsMatch, P.LeasesOk, P.OwedOk;
    assert w.(pool := w.pool) == w;
  }

  lemma ResolveBeginOk(s: Stack, e: Event)
    requires Sized(s) && StackOk(s) && e.ResolveBegin?
    ensures StepOk(s, e)
  {
    hide P.WorldOk, DeskOk, Submits, M.ResolveBegin, TakeJob;
    TakeFold(s, e.ranges, e.room, e.turns);
    ByProjection(s, e);
  }

  // ----- stores and deliveries -----

  /** A worker of the pool's performs a request that the pool is owed, as it was issued. */
  lemma WorkingOn(s: Stack, i: nat)
    requires StackOk(s) && Working(s, i)
    ensures var x := s.desk.backend.workers[i].item;
      var t := x.request.token;
      && P.Outstanding(s.pool, t) && s.pool.pool.requests[t].token == t
      && Wide(s.pool.pool.requests[t]) && x.request == FillOf(s.issuer, s.pool.pool.requests[t])
  {
    hide P.WorldOk, B.WorldOk, Matched;
    var x := s.desk.backend.workers[i].item;
    assert PerformedBy(s.desk.backend, i, x);
    HeldRequest(s.issuer, s.desk.backend, s.pool.pool.requests, s.pool.delivered, x);
    OwnToken(s.issuer, s.desk.backend, s.pool.pool.requests, s.pool.delivered, x.request.token);
  }

  lemma OwnToken(issuer: Issuer, b: B.World, requests: map<Token, Request>, delivered: set<Token>, t: Token)
    requires Matched(issuer, b, requests, delivered) && t in requests
    ensures requests[t].token == t
  {
  }

  lemma StoreStepOk(s: Stack, e: Event)
    requires Sized(s) && StackOk(s) && e.Store? && Enabled(s, e)
    ensures StepOk(s, e)
  {
    hide P.WorldOk, DeskOk, Spaced, StoreDesk, Overwrite;
    var x := s.desk.backend.workers[e.worker].item;
    WorkingOn(s, e.worker);
    WorldSpaced(s.pool);
    StoreOk(s.issuer, s.desk, s.pool.mem, s.pool.pool.requests, s.pool.delivered, e.worker, e.piece);
    PieceIsWrite(s.pool.mem, x.request.destination, x.request.length, e.piece);
    ByProjection(s, e);
  }

  /** A delivery of what the pool is owed, on both sides at once. */
  lemma DeliveredOk(s: Stack, e: Event, be: B.Event, x: BackendModel.WorkItem, result: FillResult)
    requires Sized(s) && StackOk(s) && B.Enabled(s.desk.backend, be) && Mine(s.issuer, x)
    requires (be.Finish? && x == s.desk.backend.workers[be.worker].item) ||
             (be.Cancel? && !s.desk.backend.drain.uncounted && x == s.desk.backend.drain.rest[0])
    requires Seen(s, e) == Some(P.Deliver(x.request.token, result))
    requires P.Enabled(s.pool, P.Deliver(x.request.token, result))
    requires Apply(s, e) == s.(pool := Deliver(s.pool, x.request.token, result), desk := Move(s.desk, s.pool.mem, be))
    ensures StepOk(s, e)
  {
    hide P.WorldOk, Move, Seen, Apply, M.OnComplete;
    DeliveryOk(s.issuer, s.desk, s.pool.mem, s.pool.pool.requests, s.pool.delivered, be, x);
    HeldRequest(s.issuer, s.desk.backend, s.pool.pool.requests, s.pool.delivered, x);
    SameRequests(s.pool.pool, x.request.token, result);
    hide DeskOk;
    ByProjection(s, e);
  }

  lemma SameRequests(p: Pool, t: Token, result: FillResult)
    requires M.Shaped(p)
    ensures M.OnComplete(p, t, result).requests == p.requests
  {
    hide M.Linked;
  }

  lemma FinishOk(s: Stack, e: Event)
    requires Sized(s) && StackOk(s) && e.Finish? && Enabled(s, e)
    ensures StepOk(s, e)
  {
    hide P.WorldOk, B.WorldOk, Matched, Reported, Move, M.OnComplete;
    var x := s.desk.backend.workers[e.worker].item;
    var t := x.request.token;
    WorkingOn(s, e.worker);
    ReportedIsHonest(s.issuer, s.desk, s.pool.mem, s.file, s.pool.source, e.worker,
                     s.issuer.base + x.request.destination, e.result);
    DeliveredOk(s, e, B.Finish(e.worker, e.result), x, e.result);
  }

  lemma CancelOk(s: Stack, e: Event)
    requires Sized(s) && StackOk(s) && e.Cancel? && Enabled(s, e)
    ensures StepOk(s, e)
  {
    hide P.WorldOk, B.WorldOk, Matched, Move, M.OnComplete;
    var x := s.desk.backend.drain.rest[0];
    DeliveredOk(s, e, B.Cancel, x, FillResult(Cancelled, 0));
  }

  /** Any step of the product keeps everything, and is for the pool an event that its runs allow. */
  lemma StackStep(s: Stack, e: Event)
    requires Sized(s) && StackOk(s)
    ensures StepOk(s, e)
  {
    hide StackOk, P.WorldOk;
    if Enabled(s, e) {
      match e
      case Caller(_) => CallerOk(s, e);
      case Prefetch(_, _, _) => PrefetchOk(s, e);
      case ResolveBegin(_, _, _) => ResolveBeginOk(s, e);
      case Backend(_) => BackendOk(s, e);
      case Store(_, _) => StoreStepOk(s, e);
      case Finish(_, _) => FinishOk(s, e);
      case Cancel => CancelOk(s, e);
    }
  }

  // ----- runs -----

  ghost function After(s: Stack, es: seq<Event>): (s': Stack)
    requires Sized(s)
    ensures Sized(s') && s'.issuer == s.issuer && s'.file == s.file && |s'.desk.ledgers| == |s.desk.ledgers|
  {
    if es == [] then s else Apply(After(s, es[..|es| - 1]), es[|es| - 1])
  }

  /** What the pool sees of a run. */
  ghost function SeenRun(s: Stack, es: seq<Event>): seq<P.Event>
    requires Sized(s)
  {
    if es == [] then []
    else
      var last := Seen(After(s, es[..|es| - 1]), es[|es| - 1]);
      SeenRun(s, es[..|es| - 1]) + if last.Some? then [last.value] else []
  }

  /** Every run of the product is, for the pool, a run of PoolRuns. */
  lemma {:induction false} RunProjects(s: Stack, es: seq<Event>)
    requires Sized(s) && StackOk(s)
    ensures StackOk(After(s, es)) && After(s, es).pool == P.Run(s.pool, SeenRun(s, es))
  {
    hide StackOk, Apply, Seen, P.Apply;
    StackPool(s);
    if es != [] {
      var before := After(s, es[..|es| - 1]);
      RunProjects(s, es[..|es| - 1]);
      StackStep(before, es[|es| - 1]);
      var seen := SeenRun(s, es[..|es| - 1]);
      var last := Seen(before, es[|es| - 1]);
      if last.Some? {
        P.RunMore(s.pool, seen, last.value);
      } else {
        assert seen + [] == seen;
      }
    }
  }

  lemma StackPool(s: Stack)
    requires StackOk(s)
    ensures M.Shaped(s.pool.pool)
  {
  }
}
