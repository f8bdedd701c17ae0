/** LocalFileBackend (include/sub0mempage/local_file_backend.hpp) as the class it is: a fixed ring of work
    items, proved against the bounded FIFO of BackendModel. Its worker threads, and shutdown, are the
    interleavings of BackendRuns. */
module LocalFileBackendClass {
  import opened Transfer
  import opened BackendModel

  /** The cell `k` places after `head`, around the ring. */
  function Cell(head: nat, k: nat, n: nat): (i: nat)
    requires head < n && k <= n
    ensures i == if head + k < n then head + k else head + k - n
  {
    Wrapped(head + k, n);
    (head + k) % n
  }

  lemma Wrapped(x: nat, n: nat)
    requires 0 < n && x < 2 * n
    ensures x % n == if x < n then x else x - n
  {
    if x >= n {
      assert x == n * (x / n) + x % n;
      assert x / n == 1;
    }
  }

  lemma CellsApart(head: nat, j: nat, k: nat, n: nat)
    requires head < n && j < n && k < n
    ensures Cell(head, j, n) == Cell(head, k, n) <==> j == k
    ensures 0 < k ==> Cell(Cell(head, 1, n), k - 1, n) == Cell(head, k, n)
  {
    hide Cell;
  }

  /** The `size` items of a ring, oldest first. */
  function Contents(ring: seq<WorkItem>, head: nat, size: nat): (queue: seq<WorkItem>)
    requires head < |ring| && size <= |ring|
    ensures |queue| == size
    ensures forall k :: 0 <= k < size ==> queue[k] == ring[Cell(head, k, |ring|)]
  {
    seq(size, k requires 0 <= k < size => ring[Cell(head, k, |ring|)])
  }

  class LocalFileBackend {
    const maxSources: nat
    const ring: array<WorkItem>
    var sources: seq<Source>
    var head: nat
    var size: nat
    var shuttingDown: bool
    var stats: Stats
    var calls: nat // submit calls so far, which tell requests apart

    ghost predicate Valid()
      reads this
    {
      head < ring.Length && size <= ring.Length && |sources| <= maxSources
    }

    /** What the ring holds, oldest first. */
    ghost function Queue(): (queue: seq<WorkItem>)
      reads this, ring
      requires Valid()
      ensures |queue| == size
    {
      Contents(ring[..], head, size)
    }

    ghost function Abs(): Core
      reads this, ring
      requires Valid()
    {
      Core(ring.Length, maxSources, sources, Queue(), shuttingDown, calls, stats)
    }

    constructor (workers: nat, capacity: nat, sourceTable: nat)
      requires 0 < workers && 0 < capacity && 0 < sourceTable
      ensures Valid() && fresh(ring) && Abs() == BackendModel.Create(capacity, sourceTable)
    {
      maxSources := sourceTable;
      ring := new WorkItem[capacity](_ => WorkItem(0, FillRequest(0, 0, 0, 0, 0, Token(0, 0)), None));
      sources := [];
      head, size, shuttingDown := 0, 0, false;
      stats := Stats(0, 0, 0, 0, 0, 0, 0, 0, 0);
      calls := 0;
    }

    /** A backend exactly if it has workers, room in its queue and room for sources. */
    static method Create(workers: nat, capacity: nat, sourceTable: nat)
      returns (backend: LocalFileBackend?, status: Status)
      ensures status == if 0 < workers && 0 < capacity && 0 < sourceTable then Ok else InvalidArgument
      ensures status == Ok ==> backend != null && fresh(backend) && backend.Valid()
      ensures status == Ok ==> backend.Abs() == BackendModel.Create(capacity, sourceTable)
      ensures status != Ok ==> backend == null
    {
      if workers == 0 || capacity == 0 || sourceTable == 0 {
        return null, InvalidArgument;
      }
      backend := new LocalFileBackend(workers, capacity, sourceTable);
      status := Ok;
    }

    /** The entry registered under `id`, if any. */
    method FindSource(id: nat) returns (source: Option<Source>)
      ensures source == Find(sources, id)
    {
      var k: nat := 0;
      while k < |sources|
        invariant k <= |sources| && Find(sources[k..], id) == Find(sources, id)
      {
        if sources[k].id == id {
          return Some(sources[k]);
        }
        k := k + 1;
      }
      assert sources[k..] == [];
      source := None;
    }

    /** Registers a file that has been opened and sized. */
    method Register(source: Source) returns (status: Status)
      requires Valid()
      modifies this`sources
      ensures Valid() && (Abs(), status) == BackendModel.Register(old(Abs()), source)
    {
      var found := FindSource(source.id);
      if found.Some? {
        return InvalidArgument;
      }
      if |sources| == maxSources {
        return TicketExhausted;
      }
      sources := sources + [source];
      status := Ok;
    }

    /** Queues a request, with what is registered for its source, unless the ring is full or shut down. */
    method Submit(request: FillRequest) returns (accepted: bool)
      requires Valid()
      modifies ring, this`size, this`stats, this`calls
      ensures Valid() && (Abs(), accepted) == BackendModel.Submit(old(Abs()), request)
    {
      hide Cell, Find;
      ghost var queue := Queue();
      var call := calls;
      calls := calls + 1;
      if shuttingDown || size == ring.Length {
        stats := stats.(rejected := stats.rejected + 1);
        return false;
      }
      var entry := FindSource(request.source);
      var cell := Cell(head, size, ring.Length);
      forall k: nat | k < size ensures Cell(head, k, ring.Length) != cell { CellsApart(head, k, size, ring.Length); }
      ring[cell] := WorkItem(call, request, entry);
      size := size + 1;
      stats := stats.(accepted := stats.accepted + 1,
                      highWater := if stats.highWater < size then size else stats.highWater);
      assert Queue() == queue + [WorkItem(call, request, entry)];
      accepted := true;
    }

    /** The oldest item leaves the ring. */
    method Pop() returns (item: WorkItem)
      requires Valid() && size != 0
      modifies this`head, this`size
      ensures Valid() && old(Queue()) == [item] + Queue()
    {
      hide Cell;
      ghost var queue := Queue();
      item := ring[head];
      ghost var n := ring.Length;
      forall k: nat | 0 < k < size ensures Cell(Cell(head, 1, n), k - 1, n) == Cell(head, k, n) {
        CellsApart(head, 0, k, n);
      }
      head := Cell(head, 1, ring.Length);
      size := size - 1;
      assert queue == [item] + Queue();
    }

    /** A worker's turn with the lock, when there is something to take. */
    method Dequeue() returns (item: WorkItem)
      requires Valid() && size != 0
      modifies this`head, this`size, this`stats
      ensures Valid() && (Abs(), item) == BackendModel.Dequeue(old(Abs()))
    {
      item := Pop();
      stats := stats.(inFlight := stats.inFlight + 1);
    }

    /** A worker records the result it has just delivered. */
    method Record(item: WorkItem, result: FillResult)
      requires Valid()
      modifies this`stats
      ensures Valid() && Abs() == BackendModel.Record(old(Abs()), item, result)
    {
      stats := stats.(bytesRead := stats.bytesRead + result.bytes, inFlight := stats.inFlight - 1);
      if result.status != Ok {
        stats := stats.(errors := stats.errors + 1);
      } else if result.bytes == item.request.length {
        stats := stats.(completedOk := stats.completedOk + 1);
      } else {
        stats := stats.(shortReads := stats.shortReads + 1);
      }
    }

    /** Takes everything still queued, in order, if this is the first call. */
    method BeginShutdown() returns (queued: seq<WorkItem>)
      requires Valid()
      modifies this`head, this`size, this`shuttingDown
      ensures Valid() && (Abs(), queued) == BackendModel.BeginShutdown(old(Abs()))
    {
      hide Cell;
      queued := [];
      if shuttingDown {
        return;
      }
      shuttingDown := true;
      while size != 0
        invariant Valid() && queued + Queue() == old(Queue())
        invariant shuttingDown && sources == old(sources) && stats == old(stats)
        decreases size
      {
        var item := Pop();
        queued := queued + [item];
      }
      assert Queue() == [] && queued + [] == queued;
    }

    method RecordCancelled()
      requires Valid()
      modifies this`stats
      ensures Valid() && Abs() == BackendModel.RecordCancelled(old(Abs()))
    {
      stats := stats.(cancelled := stats.cancelled + 1);
    }
  }
}
