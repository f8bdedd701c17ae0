/** TransferSet (include/sub0mempage/transfer_set.hpp) as the class it is, proved against TransferModel.
    The live records are kept in an unordered vector with back-pointers, so that a submit visits only
    them and a retirement takes constant time. */
module TransferSetClass {
  import opened Transfer
  import opened Sums
  import opened PoolState
  import M = TransferModel

  /** `live` holds every record in use once, and `liveAt` says where. */
  predicate LiveOk(records: seq<M.Record>, live: seq<nat>, liveAt: seq<nat>) {
    && |liveAt| == |records|
    && (forall p :: 0 <= p < |live| ==> live[p] < |records| && M.InUse(records[live[p]]) && liveAt[live[p]] == p)
    && (forall r :: 0 <= r < |records| && M.InUse(records[r]) ==> liveAt[r] < |live| && live[liveAt[r]] == r)
  }

  /** The live records and the free stack partition the record indices. */
  lemma Partition(t: M.Transfers, live: seq<nat>, liveAt: seq<nat>, r: nat)
    requires M.FreeOk(t) && LiveOk(t.records, live, liveAt) && r < |t.records|
    ensures (r in live) != (r in t.free)
    ensures r in live <==> M.InUse(t.records[r])
  {
    if M.InUse(t.records[r]) {
      assert live[liveAt[r]] == r;
    }
  }

  lemma {:induction false} LiveCount(records: seq<M.Record>, live: seq<nat>, liveAt: seq<nat>)
    requires LiveOk(records, live, liveAt)
    ensures Sum(records, M.UseWeight) == |live|
    decreases |live|
  {
    if live == [] {
      SumBounds(records, M.UseWeight);
    } else {
      var r := live[|live| - 1];
      var fewer := records[r := records[r].(state := M.Unused)];
      SumUpdate(records, r, records[r].(state := M.Unused), M.UseWeight);
      assert LiveOk(fewer, live[..|live| - 1], liveAt);
      LiveCount(fewer, live[..|live| - 1], liveAt);
    }
  }

  /** Moving the last live record into the place of the removed one, which may be itself. */
  lemma SwapRemoved(records: seq<M.Record>, live: seq<nat>, liveAt: seq<nat>, r: nat, x: M.Record)
    requires LiveOk(records, live, liveAt) && r < |records| && M.InUse(records[r]) && !M.InUse(x)
    ensures var at, last := liveAt[r], live[|live| - 1];
      && at < |live| && last < |liveAt|
      && LiveOk(records[r := x], live[at := last][..|live| - 1], liveAt[last := at])
  {
    var at, last := liveAt[r], live[|live| - 1];
    var live' := live[at := last][..|live| - 1];
    var liveAt' := liveAt[last := at];
    forall i | 0 <= i < |records| && M.InUse(records[r := x][i])
      ensures liveAt'[i] < |live'| && live'[liveAt'[i]] == i {
      assert live[liveAt[i]] == i;
    }
  }

  class TransferSet {
    const cfg: M.SetConfig
    var records: seq<M.Record>
    var free: seq<nat>
    var live: seq<nat>
    var liveAt: seq<nat>
    var counters: M.Counters
    var heldCount: int
    ghost var requests: map<Token, Request>

    ghost function Abs(): M.Transfers
      reads this
    {
      M.Transfers(cfg, records, free, heldCount, counters, requests)
    }

    ghost predicate Valid()
      reads this
    {
      M.Inv(Abs()) && LiveOk(records, live, liveAt)
    }

    constructor (config: M.SetConfig)
      requires config.Valid()
      ensures Valid() && Abs() == M.Create(config)
    {
      cfg := config;
      records := seq(config.maxClaims, _ => M.Record(0, 0, 0, M.Unused, Pending, false));
      free := [];
      live := [];
      liveAt := seq(config.maxClaims, _ => 0);
      counters := M.Counters(0, 0, 0, 0, 0, 0, 0);
      heldCount := 0;
      requests := map[];
      new;
      var i: nat := config.maxClaims;
      while i > 0
        invariant i <= config.maxClaims && free == M.Create(config).free[..config.maxClaims - i]
        invariant M.Create(config) == M.Transfers(cfg, records, M.Create(config).free, heldCount, counters, requests)
        invariant LiveOk(records, live, liveAt)
      {
        i := i - 1;
        free := free + [i];
      }
      M.CreateInv(config);
    }

    /** Registration. */
    static method Create(config: M.SetConfig) returns (status: Status, transfers: TransferSet?)
      ensures status == Ok <==> config.Valid()
      ensures status == Ok ==>
          transfers != null && fresh(transfers) && transfers.Valid() && transfers.Abs() == M.Create(config)
      ensures status != Ok ==> status == InvalidArgument && transfers == null
    {
      if config.sourceBytes == 0 || config.destinationBytes == 0 || config.maxClaims == 0
          || config.maxClaims >= 0xFFFF_FFFF {
        return InvalidArgument, null;
      }
      status := Ok;
      transfers := new TransferSet(config);
    }

    /** Puts a record whose state has just become unused back on the free stack: swap-remove. */
    method RetireRecord(record: nat, ghost before: seq<M.Record>)
      requires record < |records| == |before| && LiveOk(before, live, liveAt) && M.InUse(before[record])
      requires records == before[record := records[record]] && !M.InUse(records[record])
      modifies this`live, this`liveAt, this`free
      ensures LiveOk(records, live, liveAt) && free == old(free) + [record]
    {
      SwapRemoved(before, live, liveAt, record, records[record]);
      var at := liveAt[record];
      live := live[at := live[|live| - 1]];
      liveAt := liveAt[live[at] := at];
      live := live[..|live| - 1];
      free := free + [record];
    }

    /** Does the range overlap a record in use? Only those are visited. */
    method Busy(destination: u64, end: u64) returns (busy: bool)
      requires Valid() && destination < end
      ensures busy <==> M.Taken(Abs(), destination, end - destination)
    {
      hide M.Inv;
      var p: nat := 0;
      while p < |live|
        invariant p <= |live|
        invariant forall q :: 0 <= q < p ==>
          !M.Overlaps(destination, end - destination, records[live[q]].destination, records[live[q]].length)
      {
        var other := records[live[p]];
        if destination < other.destination + other.length && other.destination < end {
          return true;
        }
        p := p + 1;
      }
      forall r | 0 <= r < |records| && M.InUse(records[r])
        ensures !M.Overlaps(destination, end - destination, records[r].destination, records[r].length) {
        assert live[liveAt[r]] == r;
      }
      return false;
    }

    /** Claims a destination range and submits its transfer; `accepted` is the backend's answer. */
    method Submit(source: ByteRange, destination: u64, accepted: bool) returns (result: M.SubmitResult)
      requires Valid()
      modifies this`records, this`free, this`live, this`liveAt, this`heldCount, this`counters, this`requests
      ensures Valid() && (Abs(), result) == M.Submit(old(Abs()), source, destination, accepted)
    {
      hide M.Inv, M.Taken, LiveOk;
      M.SubmitInv(Abs(), source, destination, accepted);
      ShapedNow(Abs());
      var status := ValidateRange(source, cfg.sourceBytes);
      if status != Ok {
        return M.Refused(status);
      }
      var end := CheckedEnd(destination, source.length);
      if end.None? || end.value > cfg.destinationBytes {
        return M.Refused(OutOfRange);
      }
      var busy := Busy(destination, end.value);
      if busy {
        return M.Refused(Status.Busy);
      }
      if free == [] {
        return M.Refused(TicketExhausted);
      }
      var record := free[|free| - 1];
      var generation := records[record].generation + 1;
      if !accepted {
        return M.Refused(QueueExhausted);
      }
      Added(Abs(), live, liveAt, M.Record(destination, source.length, generation, M.Submitted, Pending, true));
      records := records[record := M.Record(destination, source.length, generation, M.Submitted, Pending, true)];
      free := free[..|free| - 1];
      liveAt := liveAt[record := |live|];
      live := live + [record];
      heldCount := heldCount + 1;
      counters := counters.(submitted := counters.submitted + 1, inFlight := counters.inFlight + 1,
                            inUse := counters.inUse + 1);
      requests := requests[Token(record, generation) := M.RequestOf(source, destination, record, generation)];
      result := M.Claimed(record, generation);
    }

    /** A delivery from the backend; one that names no transfer in flight is counted and ignored. The set stays
        valid if the delivery is of a result; TransferModel.OnCompleteExact says what becomes of it otherwise. */
    method OnComplete(token: Token, result: FillResult)
      requires Valid()
      modifies this`records, this`free, this`live, this`liveAt, this`counters
      ensures LiveOk(records, live, liveAt) && M.Shaped(old(Abs())) && Abs() == M.OnComplete(old(Abs()), token, result)
      ensures result.status != Pending ==> Valid()
    {
      hide M.Inv, LiveOk;
      if result.status != Pending {
        M.OnCompleteInv(Abs(), token, result);
      }
      ShapedNow(Abs());
      if token.index >= |records| || records[token.index].generation != token.generation
          || !records[token.index].state.Submitted? {
        counters := counters.(stale := counters.stale + 1);
        return;
      }
      var r := token.index;
      ghost var before := records;
      var status := ClassifyFill(result, records[r].length);
      counters := counters.(inFlight := counters.inFlight - 1);
      if status == Ok {
        records := records[r := records[r].(result := status, state := M.RecordState.Completed)];
        counters := counters.(completed := counters.completed + 1, bytesRead := counters.bytesRead + result.bytes);
      } else {
        records := records[r := records[r].(result := status, state := M.RecordState.Failed)];
        counters := counters.(failed := counters.failed + 1);
      }
      if records[r].held {
        StillLive(before, live, liveAt, r, records[r]);
      } else {
        records := records[r := records[r].(state := M.Unused)];
        counters := counters.(inUse := counters.inUse - 1);
        RetireRecord(r, before);
      }
    }

    /** A claim's status: without blocking, or at the end of a wait. */
    method GetStatus(record: nat, block: bool) returns (status: Status)
      requires record < |records|
      ensures status == M.ClaimStatus(Abs(), record, block)
      ensures records[record].state.Submitted? ==> status == if block then Timeout else Pending
      ensures !records[record].state.Submitted? ==> status == records[record].result
    {
      if records[record].state.Submitted? {
        return if block then Timeout else Pending;
      }
      status := records[record].result;
    }

    /** Ends a claim's use of its range. The claim is current and held: anything else terminates in the source. */
    method ReleaseClaim(record: nat, generation: nat)
      requires Valid() && record < |records| && records[record].generation == generation && records[record].held
      modifies this`records, this`free, this`live, this`liveAt, this`heldCount, this`counters
      ensures Valid() && Abs() == M.ReleaseClaim(old(Abs()), record)
    {
      hide M.Inv, LiveOk;
      M.ReleaseInv(Abs(), record);
      ShapedNow(Abs());
      HeldInUse(Abs(), record);
      ghost var before := records;
      records := records[record := records[record].(held := false)];
      heldCount := heldCount - 1;
      if records[record].state.Submitted? {
        StillLive(before, live, liveAt, record, records[record]);
      } else {
        records := records[record := records[record].(state := M.Unused)];
        counters := counters.(inUse := counters.inUse - 1);
        RetireRecord(record, before);
      }
    }
  }

  lemma ShapedNow(t: M.Transfers)
    requires M.Inv(t)
    ensures M.Shaped(t)
  {
  }

  lemma HeldInUse(t: M.Transfers, r: nat)
    requires M.Inv(t) && r < |t.records| && t.records[r].held
    ensures M.InUse(t.records[r])
  {
    assert M.RecordOk(t.cfg, t.records[r]);
  }

  /** A record that stays in use stays where it is. */
  lemma StillLive(records: seq<M.Record>, live: seq<nat>, liveAt: seq<nat>, r: nat, x: M.Record)
    requires LiveOk(records, live, liveAt) && r < |records| && M.InUse(records[r]) && M.InUse(x)
    ensures LiveOk(records[r := x], live, liveAt)
  {
  }

  /** The record popped off the stack becomes the last of the live ones. */
  lemma Added(t: M.Transfers, live: seq<nat>, liveAt: seq<nat>, x: M.Record)
    requires M.Inv(t) && LiveOk(t.records, live, liveAt) && t.free != [] && M.InUse(x)
    ensures var r := t.free[|t.free| - 1];
      r < |liveAt| && LiveOk(t.records[r := x], live + [r], liveAt[r := |live|])
  {
    hide M.LogOk, M.Apart, M.Counted, M.RecordsOk;
    var r := t.free[|t.free| - 1];
    assert !M.InUse(t.records[r]);
  }
}
