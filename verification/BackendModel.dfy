/** The worker-pool backend (include/sub0mempage/local_file_backend.hpp): what each of its critical
    sections does to the queue, the registration table and the statistics, as functions of the state. */
module BackendModel {
  import opened Transfer

  datatype Access = Buffered | Uncached

  datatype Source = Source(id: nat, size: u64, access: Access)

  /** `sink` is the issuer the result goes back to. */
  datatype FillRequest = FillRequest(sink: nat, source: nat, offset: u64, destination: nat, length: u64, token: Token)

  /** A queued request, with what the table said of its source at submit. `call` numbers the submit calls. */
  datatype WorkItem = WorkItem(call: nat, request: FillRequest, source: Option<Source>)

  datatype Stats = Stats(accepted: nat, rejected: nat, completedOk: nat, shortReads: nat, errors: nat, cancelled: nat,
                         bytesRead: nat, highWater: nat, inFlight: int)

  /** The state the backend's mutex guards. */
  datatype Core = Core(capacity: nat, maxSources: nat, sources: seq<Source>, queue: seq<WorkItem>, shuttingDown: bool,
                       calls: nat, stats: Stats)

  function Create(capacity: nat, maxSources: nat): Core {
    Core(capacity, maxSources, [], [], false, 0, Stats(0, 0, 0, 0, 0, 0, 0, 0, 0))
  }

  function Find(sources: seq<Source>, id: nat): (s: Option<Source>)
    ensures s.Some? ==> s.value in sources && s.value.id == id
    ensures s.None? ==> forall i :: 0 <= i < |sources| ==> sources[i].id != id
  {
    if sources == [] then None
    else if sources[0].id == id then Some(sources[0])
    else Find(sources[1..], id)
  }

  /** Registration of a file that could be opened and sized; the table is append-only, one entry per id. */
  function Register(c: Core, source: Source): (r: (Core, Status)) {
    if Find(c.sources, source.id).Some? then (c, InvalidArgument)
    else if |c.sources| >= c.maxSources then (c, TicketExhausted)
    else (c.(sources := c.sources + [source]), Ok)
  }

  function Accepts(c: Core): bool { !c.shuttingDown && |c.queue| != c.capacity }

  function ItemFor(c: Core, request: FillRequest): WorkItem
  {
    WorkItem(c.calls, request, Find(c.sources, request.source))
  }

  /** The longest queue so far, when one more request is queued. */
  function HighWater(c: Core): nat {
    if c.stats.highWater < |c.queue| + 1 then |c.queue| + 1 else c.stats.highWater
  }

  function Submit(c: Core, request: FillRequest): (r: (Core, bool)) {
    var called := c.(calls := c.calls + 1);
    if !Accepts(c) then (called.(stats := c.stats.(rejected := c.stats.rejected + 1)), false)
    else
      (called.(queue := c.queue + [ItemFor(c, request)],
               stats := c.stats.(accepted := c.stats.accepted + 1, highWater := HighWater(c))), true)
  }

  /** A worker takes the oldest request. */
  function Dequeue(c: Core): (r: (Core, WorkItem))
    requires c.queue != []
  {
    (c.(queue := c.queue[1..], stats := c.stats.(inFlight := c.stats.inFlight + 1)), c.queue[0])
  }

  /** A worker has delivered `result` for `item` and records it. */
  function Record(c: Core, item: WorkItem, result: FillResult): Core {
    var s := c.stats.(inFlight := c.stats.inFlight - 1, bytesRead := c.stats.bytesRead + result.bytes);
    c.(stats := if result.status != Ok then s.(errors := s.errors + 1)
                else if result.bytes == item.request.length then s.(completedOk := s.completedOk + 1)
                else s.(shortReads := s.shortReads + 1))
  }

  /** The first shutdown takes everything still queued; a later one does nothing. */
  function BeginShutdown(c: Core): (r: (Core, seq<WorkItem>)) {
    if c.shuttingDown then (c, []) else (c.(shuttingDown := true, queue := []), c.queue)
  }

  function RecordCancelled(c: Core): Core { c.(stats := c.stats.(cancelled := c.stats.cancelled + 1)) }
}
