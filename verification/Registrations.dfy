/** What a run of the backend remembers of its callers (local_file_backend.hpp): which sources are registered, what
    register_file and submit answer, which source each queued request reads, and the two statistics that the
    deliveries alone do not determine. Everything here is said of the events of a run. */
module Registrations {
  import opened Transfer
  import opened Sums
  import opened BackendModel
  import opened BackendRuns

  function Start(capacity: nat, maxSources: nat, workers: nat): World {
    BackendRuns.Create(capacity, maxSources, workers)
  }

  // ----- what is registered -----

  /** The call at event `j` registered the source: it returned ok. */
  predicate GrantedAt(w: World, es: seq<Event>, j: nat, source: Source)
    requires j <= |es|
  {
    j < |es| && es[j] == Event.Register(source) && BackendModel.Register(After(w, es, j).core, source).1 == Ok
  }

  /** Some registration of the source had returned ok before event `k`. */
  predicate Granted(w: World, es: seq<Event>, k: nat, source: Source)
    requires k <= |es|
  {
    exists j: nat :: j < k && GrantedAt(w, es, j, source)
  }

  function Grants(w: World, es: seq<Event>, k: nat): (n: nat)
    requires k <= |es|
  {
    if k == 0 then 0
    else
      Grants(w, es, k - 1) + if es[k - 1].Register? && GrantedAt(w, es, k - 1, es[k - 1].source) then 1 else 0
  }

  predicate Distinct(sources: seq<Source>) {
    forall i, j :: 0 <= i < j < |sources| ==> sources[i].id != sources[j].id
  }

  lemma FindDistinct(sources: seq<Source>, source: Source)
    requires Distinct(sources) && source in sources
    ensures Find(sources, source.id) == Some(source)
  {
  }

  lemma OnlyRegisterMoves(w: World, e: Event)
    requires !e.Register?
    ensures Apply(w, e).core.sources == w.core.sources
  {
    hide Find, NoneAsleep, AllExited;
  }

  lemma LimitsKept(w: World, e: Event)
    ensures Apply(w, e).core.maxSources == w.core.maxSources && Apply(w, e).core.capacity == w.core.capacity
  {
    hide Find, NoneAsleep, AllExited;
  }

  /** The table holds exactly the sources whose registration returned ok, one for each id. */
  lemma {:induction false} TableIsGranted(capacity: nat, maxSources: nat, workers: nat, es: seq<Event>, k: nat)
    requires k <= |es|
    ensures var w := Start(capacity, maxSources, workers);
      var c := After(w, es, k).core;
      && Distinct(c.sources) && |c.sources| == Grants(w, es, k) && c.maxSources == maxSources
      && c.capacity == capacity
      && (forall s :: s in c.sources <==> Granted(w, es, k, s))
  {
    hide Apply, Find;
    var w := Start(capacity, maxSources, workers);
    if k > 0 {
      TableIsGranted(capacity, maxSources, workers, es, k - 1);
      var before := After(w, es, k - 1);
      LimitsKept(before, es[k - 1]);
      if es[k - 1].Register? {
        RegisterAdds(before, es[k - 1].source);
      } else {
        OnlyRegisterMoves(before, es[k - 1]);
      }
      forall s ensures s in After(w, es, k).core.sources <==> Granted(w, es, k, s) {
        GrantedMore(w, es, k, s);
      }
    }
  }

  lemma GrantedMore(w: World, es: seq<Event>, k: nat, s: Source)
    requires 0 < k <= |es|
    ensures Granted(w, es, k, s) <==> Granted(w, es, k - 1, s) || GrantedAt(w, es, k - 1, s)
  {
    hide GrantedAt;
  }

  lemma RegisterAdds(w: World, source: Source)
    requires Distinct(w.core.sources)
    ensures var c := Apply(w, Event.Register(source)).core;
      && Distinct(c.sources)
      && c.sources == w.core.sources +
           (if BackendModel.Register(w.core, source).1 == Ok then [source] else [])
  {
    assert w.core.sources + [] == w.core.sources;
  }

  /** What a registration answers: that the id is taken exactly if it was registered before, else that the table
      is full exactly if as many registrations as it has room for returned ok, else ok. */
  lemma RegisterAnswer(capacity: nat, maxSources: nat, workers: nat, es: seq<Event>, k: nat, source: Source)
    requires k <= |es|
    ensures var w := Start(capacity, maxSources, workers);
      var status := BackendModel.Register(After(w, es, k).core, source).1;
      && (status == InvalidArgument <==> exists s :: Granted(w, es, k, s) && s.id == source.id)
      && (status == TicketExhausted <==>
            (forall s :: Granted(w, es, k, s) ==> s.id != source.id) && Grants(w, es, k) == maxSources)
      && (status == Ok <==>
            (forall s :: Granted(w, es, k, s) ==> s.id != source.id) && Grants(w, es, k) < maxSources)
      && Grants(w, es, k) <= maxSources
  {
    hide After, GrantedAt, Granted;
    var w := Start(capacity, maxSources, workers);
    TableIsGranted(capacity, maxSources, workers, es, k);
    GrantsFit(capacity, maxSources, workers, es, k);
    var c := After(w, es, k).core;
    if s :| s in c.sources && s.id == source.id {
      FindDistinct(c.sources, s);
      assert Granted(w, es, k, s);
    }
  }

  lemma {:induction false} GrantsFit(capacity: nat, maxSources: nat, workers: nat, es: seq<Event>, k: nat)
    requires k <= |es|
    ensures Grants(Start(capacity, maxSources, workers), es, k) <= maxSources
  {
    hide After;
    if k > 0 {
      GrantsFit(capacity, maxSources, workers, es, k - 1);
      TableIsGranted(capacity, maxSources, workers, es, k - 1);
    }
  }

  // ----- what submit answers -----

  /** A submit call at event `k` is accepted exactly if no shutdown call came before it and fewer requests than
      the ring has room for are accepted and not yet taken. */
  lemma SubmitAnswer(capacity: nat, maxSources: nat, workers: nat, es: seq<Event>, k: nat, request: FillRequest)
    requires k <= |es|
    ensures var b := After(Start(capacity, maxSources, workers), es, k);
      && |b.taken| <= |b.accepted|
      && (BackendModel.Submit(b.core, request).1 <==>
            (forall j :: 0 <= j < k ==> !es[j].Shutdown?) && |b.accepted| - |b.taken| < capacity)
  {
    hide After, WorldOk, Distinct;
    var w := Start(capacity, maxSources, workers);
    CreateOk(capacity, maxSources, workers);
    RunOk(w, es, k);
    TableIsGranted(capacity, maxSources, workers, es, k);
    QueueIsRest(After(w, es, k));
    ShutdownSeen(w, es, k);
  }

  lemma QueueIsRest(w: World)
    requires WorldOk(w)
    ensures w.accepted == w.taken + w.core.queue && |w.core.queue| <= w.core.capacity
  {
  }

  lemma {:induction false} ShutdownSeen(w: World, es: seq<Event>, k: nat)
    requires k <= |es|
    ensures After(w, es, k).core.shuttingDown <==>
        w.core.shuttingDown || exists j :: 0 <= j < k && es[j].Shutdown?
  {
    hide Apply;
    if k > 0 {
      ShutdownSeen(w, es, k - 1);
      ShutdownStep(After(w, es, k - 1), es[k - 1]);
    }
  }

  lemma ShutdownStep(w: World, e: Event)
    ensures Apply(w, e).core.shuttingDown <==> w.core.shuttingDown || e.Shutdown?
  {
    hide Find, NoneAsleep, AllExited;
  }

  // ----- which source a request reads -----

  /** At event `j` a submit call was accepted and queued the item: as it was asked for, and with the source
      registered under its id by then, if any. */
  ghost predicate QueuedAt(w: World, es: seq<Event>, j: nat, x: WorkItem)
    requires j <= |es|
  {
    && j < |es| && es[j].Submit? && Enabled(After(w, es, j), es[j])
    && BackendModel.Submit(After(w, es, j).core, es[j].request).1
    && After(w, es, j + 1).accepted == After(w, es, j).accepted + [x]
    && x.request == es[j].request
    && (x.source.Some? ==> x.source.value.id == x.request.source && Granted(w, es, j, x.source.value))
    && (x.source.None? ==> forall s :: Granted(w, es, j, s) ==> s.id != x.request.source)
  }

  /** No id is registered twice, so there is at most one such source. */
  lemma GrantedOnce(capacity: nat, maxSources: nat, workers: nat, es: seq<Event>, k: nat, s: Source, t: Source)
    requires k <= |es| && s.id == t.id
    requires Granted(Start(capacity, maxSources, workers), es, k, s)
    requires Granted(Start(capacity, maxSources, workers), es, k, t)
    ensures s == t
  {
    hide After, Granted;
    TableIsGranted(capacity, maxSources, workers, es, k);
    FindDistinct(After(Start(capacity, maxSources, workers), es, k).core.sources, s);
    FindDistinct(After(Start(capacity, maxSources, workers), es, k).core.sources, t);
  }

  lemma SubmitQueues(w: World, e: Event)
    requires e.Submit? && Enabled(w, e)
    ensures var x := WorkItem(w.core.calls, e.request, Find(w.core.sources, e.request.source));
      Apply(w, e).accepted == w.accepted + if BackendModel.Submit(w.core, e.request).1 then [x] else []
  {
    hide Find, NoneAsleep;
    assert w.accepted + [] == w.accepted;
  }

  lemma OthersQueueNothing(w: World, e: Event)
    requires !(e.Submit? && Enabled(w, e))
    ensures Apply(w, e).accepted == w.accepted
  {
    hide Find, NoneAsleep, AllExited;
  }

  /** Every item the backend has accepted was queued by one submit call, with the source registered under its id
      before that call, and with none exactly if there was none. */
  lemma {:induction false} AcceptedWasQueued(capacity: nat, maxSources: nat, workers: nat, es: seq<Event>, k: nat,
                                             i: nat)
    requires k <= |es| && i < |After(Start(capacity, maxSources, workers), es, k).accepted|
    ensures var w := Start(capacity, maxSources, workers);
      exists j: nat :: j < k && QueuedAt(w, es, j, After(w, es, k).accepted[i])
  {
    hide Apply, Enabled, Find, Granted;
    var w := Start(capacity, maxSources, workers);
    var before, e := After(w, es, k - 1), es[k - 1];
    var x := After(w, es, k).accepted[i];
    if i < |before.accepted| {
      AcceptedWasQueued(capacity, maxSources, workers, es, k - 1, i);
      if e.Submit? && Enabled(before, e) { SubmitQueues(before, e); } else { OthersQueueNothing(before, e); }
    } else if e.Submit? && Enabled(before, e) {
      SubmitQueues(before, e);
      TableIsGranted(capacity, maxSources, workers, es, k - 1);
      assert After(w, es, k - 1 + 1) == After(w, es, k);
      assert QueuedAt(w, es, k - 1, x);
    } else {
      OthersQueueNothing(before, e);
    }
  }

  /** So what a worker holds, or has yet to be taken or cancelled, has the source that was registered for it. */
  lemma HeldWasQueued(capacity: nat, maxSources: nat, workers: nat, es: seq<Event>, k: nat, x: WorkItem)
    requires k <= |es|
    requires var b := After(Start(capacity, maxSources, workers), es, k);
      || x in b.core.queue || x in Rest(b)
      || exists i: nat :: i < |b.workers| && b.workers[i] == Performing(x)
    ensures exists j: nat :: j < k && QueuedAt(Start(capacity, maxSources, workers), es, j, x)
  {
    hide After, WorldOk, QueuedAt;
    var w := Start(capacity, maxSources, workers);
    CreateOk(capacity, maxSources, workers);
    RunOk(w, es, k);
    HeldIsAccepted(After(w, es, k), x);
    var i :| 0 <= i < |After(w, es, k).accepted| && After(w, es, k).accepted[i] == x;
    AcceptedWasQueued(capacity, maxSources, workers, es, k, i);
  }

  lemma HeldIsAccepted(b: World, x: WorkItem)
    requires WorldOk(b)
    requires x in b.core.queue || x in Rest(b) || exists i: nat :: i < |b.workers| && b.workers[i] == Performing(x)
    ensures x in b.accepted
  {
    hide WorldOk, Rest;
    DeliveredOnce(b, x);
    SumBounds(b.core.queue, Is(x));
    SumBounds(b.workers, Owns(x));
    SumBounds(Rest(b), Is(x));
    SumBounds(b.log, Delivers(x));
    if i :| 0 <= i < |b.core.queue| && b.core.queue[i] == x {
      assert Is(x)(b.core.queue[i]) == 1;
    } else if i :| 0 <= i < |Rest(b)| && Rest(b)[i] == x {
      assert Is(x)(Rest(b)[i]) == 1;
    } else {
      var i: nat :| i < |b.workers| && b.workers[i] == Performing(x);
      assert Owns(x)(b.workers[i]) == 1;
    }
  }

  // ----- two statistics -----

  /** The high water is the longest the queue has been. */
  lemma {:induction false} HighWaterIsLongest(capacity: nat, maxSources: nat, workers: nat, es: seq<Event>, k: nat)
    requires k <= |es|
    ensures var w := Start(capacity, maxSources, workers);
      var high := After(w, es, k).core.stats.highWater;
      && (forall j: nat :: j <= k ==> |After(w, es, j).core.queue| <= high)
      && (exists j: nat :: j <= k && |After(w, es, j).core.queue| == high)
  {
    hide Apply;
    var w := Start(capacity, maxSources, workers);
    if k == 0 {
      assert |After(w, es, 0).core.queue| == 0;
    } else {
      HighWaterIsLongest(capacity, maxSources, workers, es, k - 1);
      HighWaterStep(After(w, es, k - 1), es[k - 1]);
      var j: nat :| j <= k - 1 && |After(w, es, j).core.queue| == After(w, es, k - 1).core.stats.highWater;
      if After(w, es, k).core.stats.highWater == After(w, es, k - 1).core.stats.highWater {
        assert j <= k;
      } else {
        assert |After(w, es, k).core.queue| == After(w, es, k).core.stats.highWater;
      }
    }
  }

  lemma HighWaterStep(w: World, e: Event)
    requires |w.core.queue| <= w.core.stats.highWater
    ensures Apply(w, e).core.stats.highWater ==
      if |Apply(w, e).core.queue| <= w.core.stats.highWater then w.core.stats.highWater
      else |Apply(w, e).core.queue|
  {
    hide Find, NoneAsleep, AllExited;
  }

  function DeliveredBytes(d: Delivery): int { d.result.bytes }
  function UnrecordedBytes(x: Worker): int { if x.Recording? then x.result.bytes else 0 }

  /** The bytes read, with those delivered and still to be recorded, are the bytes of all deliveries. */
  predicate BytesOk(w: World) {
    w.core.stats.bytesRead + Sum(w.workers, UnrecordedBytes) == Sum(w.log, DeliveredBytes)
  }

  lemma BytesStep(w: World, e: Event)
    requires BytesOk(w)
    ensures BytesOk(Apply(w, e))
  {
    hide NoneAsleep, AllExited, Find, StepWorker, StartShutdown;
    if Enabled(w, e) {
      match e
      case Submit(_, wakes) =>
        if wakes < |w.workers| {
          SumUpdate(w.workers, wakes, Awake, UnrecordedBytes);
        }
      case Spurious(i) => SumUpdate(w.workers, i, Awake, UnrecordedBytes);
      case Step(i) => BytesWorker(w, i);
      case Finish(i, result) =>
        SumUpdate(w.workers, i, Recording(w.workers[i].item, result), UnrecordedBytes);
        LoggedBytes(w.log, Delivery(w.workers[i].item, result));
      case Shutdown => BytesShutdown(w);
      case Cancel =>
        if !w.drain.uncounted {
          LoggedBytes(w.log, Delivery(w.drain.rest[0], FillResult(Cancelled, 0)));
        }
      case _ =>
    }
  }

  lemma LoggedBytes(log: seq<Delivery>, d: Delivery)
    ensures Sum(log + [d], DeliveredBytes) == Sum(log, DeliveredBytes) + d.result.bytes
  {
    SumAppend(log, [d], DeliveredBytes);
    SumOne(d, DeliveredBytes);
  }

  lemma BytesWorker(w: World, i: nat)
    requires BytesOk(w) && Enabled(w, Step(i))
    ensures BytesOk(StepWorker(w, i))
  {
    SumUpdate(w.workers, i, StepWorker(w, i).workers[i], UnrecordedBytes);
  }

  lemma BytesShutdown(w: World)
    requires BytesOk(w)
    ensures BytesOk(StartShutdown(w))
  {
    if !w.core.shuttingDown {
      SumSame(w.workers, WakeAll(w.workers), UnrecordedBytes);
    }
  }

  /** In every reachable state. */
  lemma {:induction false} BytesCounted(capacity: nat, maxSources: nat, workers: nat, es: seq<Event>, k: nat)
    requires k <= |es|
    ensures BytesOk(After(Start(capacity, maxSources, workers), es, k))
  {
    hide Apply;
    if k == 0 {
      SumBounds(Start(capacity, maxSources, workers).workers, UnrecordedBytes);
    } else {
      BytesCounted(capacity, maxSources, workers, es, k - 1);
      BytesStep(After(Start(capacity, maxSources, workers), es, k - 1), es[k - 1]);
    }
  }
}
