/** The state of a SlotPool (include/sub0mempage/slot_pool.hpp), without its two representations: the
    open-addressed index and the linked waiter lists. What they represent is here instead: the chunk a
    slot is live for, and, for each waiter entry, the slot whose fill it awaits (`on`). */
module PoolState {
  import opened Transfer

  /** Registration parameters; the storage span is `slotBytes * numSlots` bytes long. */
  datatype Config = Config(sourceBytes: u64, slotBytes: u64, numSlots: nat, maxTickets: nat, maxBatch: nat) {
    /** What `create` accepts, given a storage span of the right size. */
    predicate Valid() {
      && 0 < slotBytes && 0 < numSlots < 0xFFFF_FFFF && 0 < sourceBytes
      && 0 < maxTickets < 0xFFFF_FFFF && 0 < maxBatch
      && slotBytes * numSlots <= U64_MAX && maxBatch * maxTickets < 0xFFFF_FFFF
    }
  }

  datatype SlotState = Free | Filling | Ready | Failed

  datatype Slot = Slot(chunk: nat, generation: nat, pins: int, state: SlotState, failure: Status,
                       referenced: bool, hintUnconsumed: bool)
  {
    /** A live slot is one the index names: it is being filled with, or holds, its chunk. */
    predicate Live() { state.Filling? || state.Ready? }
  }

  datatype TicketRecord = TicketRecord(generation: nat, chunks: nat, pending: int, held: bool, inUse: bool)

  datatype Stats = Stats(highWater: int, hintIssued: nat, hintAdmitted: nat, hintResident: nat, hintDeclined: nat,
                         hintUnconsumed: nat, admissionFailures: nat, resolveHits: nat, resolveMisses: nat,
                         coalesced: nat, evictions: nat, fillsFailed: nat, stale: nat, bytesRead: nat)

  /** What a fill asks of the backend: `length` bytes from `source`, into the storage from `destination` on. */
  datatype Request = Request(source: nat, destination: nat, length: nat, token: Token)

  /** Two fields only record history: `consumed` counts the prefetched fills whose flag a resolve has
      cleared, and `requests` holds every request the backend has accepted, by its token. */
  datatype Pool = Pool(cfg: Config, slots: seq<Slot>, outcomes: seq<Status>, on: seq<int>,
                       tickets: seq<TicketRecord>, hand: nat, inFlight: int, pinsTotal: int,
                       ticketsHeld: int, nonFree: int, stats: Stats, consumed: nat, requests: map<Token, Request>)

  /** A pin on one slot: `at` is where its bytes start inside the slot, `source` where they start in the
      source. */
  datatype Lease = Lease(slot: nat, generation: nat, at: nat, source: nat, length: nat)

  /** One chunk of a batch, with the range that named it. */
  datatype Segment = Segment(chunk: nat, range: ByteRange)

  /** Bytes of `chunk` inside the source; the last chunk is clipped at the end of the source. The zero
      is for chunks past the end, which no validated range names. */
  function ChunkLength(cfg: Config, chunk: nat): (length: nat)
    ensures length <= cfg.slotBytes
    ensures chunk * cfg.slotBytes < cfg.sourceBytes && 0 < cfg.slotBytes ==>
      0 < length && chunk * cfg.slotBytes + length <= cfg.sourceBytes
  {
    var left := cfg.sourceBytes - chunk * cfg.slotBytes;
    if left <= 0 then 0 else Min(cfg.slotBytes, left)
  }

  function RequestFor(cfg: Config, slot: nat, generation: nat, chunk: nat): Request {
    Request(chunk * cfg.slotBytes, slot * cfg.slotBytes, ChunkLength(cfg, chunk), Token(slot, generation))
  }

  /** The slot that is live for `chunk`, or NONE: what the index computes. */
  function Lookup(slots: seq<Slot>, chunk: nat): (slot: int)
    ensures slot == NONE || 0 <= slot < |slots|
    ensures slot != NONE ==> slots[slot].Live() && slots[slot].chunk == chunk
    ensures slot == NONE ==> forall i :: 0 <= i < |slots| && slots[i].Live() ==> slots[i].chunk != chunk
  {
    if slots == [] then NONE
    else
      var last := |slots| - 1;
      if slots[last].Live() && slots[last].chunk == chunk then last
      else Lookup(slots[..last], chunk)
  }
}
