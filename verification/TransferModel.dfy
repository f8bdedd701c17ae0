/** Explicit-destination transfers (include/sub0mempage/transfer_set.hpp): what each critical section does,
    as functions of the state, and what every one of them keeps. The vector of live records is left to
    the class: here a record is live when its state is not free. */
module TransferModel {
  import opened Transfer
  import opened Sums
  import opened PoolState

  datatype SetConfig = SetConfig(sourceBytes: u64, destinationBytes: u64, maxClaims: nat) {
    predicate Valid() { 0 < sourceBytes && 0 < destinationBytes && 0 < maxClaims < 0xFFFF_FFFF }
  }

  datatype RecordState = Unused | Submitted | Completed | Failed

  datatype Record = Record(destination: nat, length: nat, generation: nat, state: RecordState, result: Status,
                           held: bool)

  datatype Counters = Counters(submitted: nat, completed: nat, failed: nat, stale: nat, bytesRead: nat,
                               inFlight: int, inUse: int)

  /** `free` is the stack of free records; `requests` records every request the backend has accepted. */
  datatype Transfers = Transfers(cfg: SetConfig, records: seq<Record>, free: seq<nat>, heldCount: int,
                                 counters: Counters,
                                 requests: map<Token, Request>)

  predicate InUse(r: Record) { !r.state.Unused? }

  predicate Overlaps(a: nat, alen: nat, b: nat, blen: nat) { a < b + blen && b < a + alen }

  function Create(cfg: SetConfig): (t: Transfers)
    requires cfg.Valid()
    ensures Shaped(t) && t.cfg == cfg
  {
    Transfers(cfg, seq(cfg.maxClaims, _ => Record(0, 0, 0, Unused, Pending, false)),
              seq(cfg.maxClaims, i requires 0 <= i < cfg.maxClaims => cfg.maxClaims - 1 - i), 0,
                  Counters(0, 0, 0, 0, 0, 0, 0), map[])
  }

  predicate Shaped(t: Transfers) {
    && t.cfg.Valid() && |t.records| == t.cfg.maxClaims
    && forall k :: 0 <= k < |t.free| ==> t.free[k] < |t.records|
  }

  // ----- operations -----

  /** A claim is the record and its generation; a refusal leaves the set as it was. */
  datatype SubmitResult = Refused(status: Status) | Claimed(record: nat, generation: nat)

  /** Some record in use has a range that overlaps `[destination, destination + length)`. */
  predicate Taken(t: Transfers, destination: nat, length: nat) {
    exists r :: 0 <= r < |t.records| && InUse(t.records[r])
        && Overlaps(destination, length, t.records[r].destination, t.records[r].length)
  }

  function RequestOf(source: ByteRange, destination: nat, r: nat, generation: nat): Request {
    Request(source.offset, destination, source.length, Token(r, generation))
  }

  function Start(t: Transfers, r: nat, source: ByteRange, destination: nat): Transfers
    requires r < |t.records| && t.free != []
  {
    var generation := t.records[r].generation + 1;
    t.(records := t.records[r := Record(destination, source.length, generation, Submitted, Pending, true)],
       free := t.free[..|t.free| - 1],
       heldCount := t.heldCount + 1,
       counters := t.counters.(submitted := t.counters.submitted + 1, inFlight := t.counters.inFlight + 1,
                               inUse := t.counters.inUse + 1),
       requests := t.requests[Token(r, generation) := RequestOf(source, destination, r, generation)])
  }

  function Submit(t: Transfers, source: ByteRange, destination: u64, accepted: bool): (r: (Transfers, SubmitResult))
    requires Shaped(t)
    ensures Shaped(r.0) && r.0.cfg == t.cfg
  {
    var valid := ValidateRange(source, t.cfg.sourceBytes);
    var end := CheckedEnd(destination, source.length);
    if valid != Ok then (t, Refused(valid))
    else if end.None? || end.value > t.cfg.destinationBytes then (t, Refused(OutOfRange))
    else if Taken(t, destination, source.length) then (t, Refused(Busy))
    else if t.free == [] then (t, Refused(TicketExhausted))
    else if !accepted then (t, Refused(QueueExhausted))
    else
      var r := t.free[|t.free| - 1];
      (Start(t, r, source, destination), Claimed(r, t.records[r].generation + 1))
  }

  /** A terminal, unheld record goes back on the stack. */
  function Retire(t: Transfers, r: nat): Transfers
    requires r < |t.records|
  {
    t.(records := t.records[r := t.records[r].(state := Unused)], free := t.free + [r],
       counters := t.counters.(inUse := t.counters.inUse - 1))
  }

  predicate Current(t: Transfers, token: Token) {
    token.index < |t.records| && t.records[token.index].generation == token.generation
        && t.records[token.index].state.Submitted?
  }

  function Finish(t: Transfers, r: nat, result: FillResult): Transfers
    requires r < |t.records|
  {
    var status := ClassifyFill(result, t.records[r].length);
    var c := t.counters.(inFlight := t.counters.inFlight - 1);
    t.(records := t.records[r := t.records[r].(result := status,
                                               state := if status == Ok then RecordState.Completed
                                                   else RecordState.Failed)],
       counters := if status == Ok then c.(completed := c.completed + 1, bytesRead := c.bytesRead + result.bytes)
                   else c.(failed := c.failed + 1))
  }

  function OnComplete(t: Transfers, token: Token, result: FillResult): (q: Transfers)
    requires Shaped(t)
    ensures Shaped(q) && q.cfg == t.cfg
  {
    if !Current(t, token) then t.(counters := t.counters.(stale := t.counters.stale + 1))
    else
      var q := Finish(t, token.index, result);
      if q.records[token.index].held then q else Retire(q, token.index)
  }

  function ReleaseClaim(t: Transfers, r: nat): (q: Transfers)
    requires Shaped(t) && r < |t.records|
    ensures Shaped(q) && q.cfg == t.cfg
  {
    var q := t.(records := t.records[r := t.records[r].(held := false)], heldCount := t.heldCount - 1);
    if q.records[r].state.Submitted? then q else Retire(q, r)
  }

  /** What a claim's owner sees: a blocked wait that comes back early has timed out. */
  function ClaimStatus(t: Transfers, r: nat, block: bool): Status
    requires r < |t.records|
  {
    if t.records[r].state.Submitted? then (if block then Timeout else Pending) else t.records[r].result
  }

  // ----- what every operation keeps -----

  function SubmittedWeight(r: Record): int { if r.state.Submitted? then 1 else 0 }
  function UseWeight(r: Record): int { if InUse(r) then 1 else 0 }
  function HeldWeight(r: Record): int { if r.held then 1 else 0 }

  /** A record is in use exactly while it is held or its transfer is in flight, and while it is in use its
      range lies in the destination. */
  predicate RecordOk(cfg: SetConfig, r: Record) {
    && (InUse(r) <==> r.held || r.state.Submitted?)
    && (r.state.Submitted? ==> r.result == Pending)
    && (r.state.Completed? ==> r.result == Ok)
    && (r.state.Failed? ==> r.result != Ok && r.result != Pending)
    && (InUse(r) ==> 0 < r.length && r.destination + r.length <= cfg.destinationBytes)
  }

  predicate Apart(records: seq<Record>) {
    forall i, j :: 0 <= i < |records| && 0 <= j < |records| && i != j && InUse(records[i]) && InUse(records[j]) ==>
      !Overlaps(records[i].destination, records[i].length, records[j].destination, records[j].length)
  }

  /** The stack holds every free record once and no other. */
  predicate FreeOk(t: Transfers) {
    && (forall k :: 0 <= k < |t.free| ==> t.free[k] < |t.records| && !InUse(t.records[t.free[k]]))
    && (forall j, k :: 0 <= j < k < |t.free| ==> t.free[j] != t.free[k])
    && (forall r :: 0 <= r < |t.records| && !InUse(t.records[r]) ==> r in t.free)
  }

  predicate Counted(t: Transfers) {
    && t.counters.submitted == t.counters.completed + t.counters.failed + t.counters.inFlight
    && t.counters.inFlight == Sum(t.records, SubmittedWeight)
    && t.counters.inUse == Sum(t.records, UseWeight)
    && t.heldCount == Sum(t.records, HeldWeight)
  }

  /** The request of the transfer that a record in use was last submitted for. */
  predicate Logged(t: Transfers, r: nat)
    requires r < |t.records|
  {
    var token := Token(r, t.records[r].generation);
    && token in t.requests && t.requests[token].token == token
    && t.requests[token].destination == t.records[r].destination && t.requests[token].length == t.records[r].length
    && t.requests[token].source + t.requests[token].length <= t.cfg.sourceBytes
  }

  predicate LogOk(t: Transfers) {
    && (forall k :: k in t.requests ==> k.index < |t.records| && k.generation <= t.records[k.index].generation)
    && forall r :: 0 <= r < |t.records| && InUse(t.records[r]) ==> Logged(t, r)
  }

  predicate RecordsOk(t: Transfers) { forall r :: 0 <= r < |t.records| ==> RecordOk(t.cfg, t.records[r]) }

  predicate Inv(t: Transfers) {
    Shaped(t) && RecordsOk(t) && Apart(t.records) && FreeOk(t) && Counted(t) && LogOk(t)
  }

  lemma RecordSums(records: seq<Record>, r: nat, x: Record)
    requires r < |records|
    ensures Sum(records[r := x], SubmittedWeight)
        == Sum(records, SubmittedWeight) - SubmittedWeight(records[r]) + SubmittedWeight(x)
    ensures Sum(records[r := x], UseWeight) == Sum(records, UseWeight) - UseWeight(records[r]) + UseWeight(x)
    ensures Sum(records[r := x], HeldWeight) == Sum(records, HeldWeight) - HeldWeight(records[r]) + HeldWeight(x)
  {
    SumUpdate(records, r, x, SubmittedWeight);
    SumUpdate(records, r, x, UseWeight);
    SumUpdate(records, r, x, HeldWeight);
  }

  lemma CreateInv(cfg: SetConfig)
    requires cfg.Valid()
    ensures Inv(Create(cfg))
    ensures Create(cfg).counters == Counters(0, 0, 0, 0, 0, 0, 0) && Create(cfg).heldCount == 0
    ensures forall r :: 0 <= r < cfg.maxClaims ==>
      !InUse(Create(cfg).records[r]) && Create(cfg).records[r].generation == 0
  {
    var t := Create(cfg);
    SumBounds(t.records, SubmittedWeight);
    SumBounds(t.records, UseWeight);
    SumBounds(t.records, HeldWeight);
    forall r | 0 <= r < |t.records| ensures r in t.free { assert t.free[cfg.maxClaims - 1 - r] == r; }
  }

  lemma StartFree(t: Transfers, source: ByteRange, destination: nat)
    requires Shaped(t) && FreeOk(t) && t.free != []
    ensures FreeOk(Start(t, t.free[|t.free| - 1], source, destination))
  {
    var last := |t.free| - 1;
    var r := t.free[last];
    var q := Start(t, r, source, destination);
    forall i | 0 <= i < |q.records| && !InUse(q.records[i]) ensures i in q.free {
      assert i in t.free && i != r;
      var k :| 0 <= k < |t.free| && t.free[k] == i;
      assert q.free[k] == i;
    }
  }

  lemma StartApart(t: Transfers, r: nat, source: ByteRange, destination: nat)
    requires r < |t.records| && t.free != [] && Apart(t.records) && !Taken(t, destination, source.length)
    ensures Apart(Start(t, r, source, destination).records)
  {
  }

  lemma StartLog(t: Transfers, r: nat, source: ByteRange, destination: nat)
    requires r < |t.records| && t.free != [] && LogOk(t) && source.offset + source.length <= t.cfg.sourceBytes
    ensures LogOk(Start(t, r, source, destination))
  {
    hide InUse;
    var q := Start(t, r, source, destination);
    forall i | 0 <= i < |q.records| && InUse(q.records[i]) ensures Logged(q, i) {
      assert i != r ==> Logged(t, i);
    }
  }

  lemma StartInv(t: Transfers, source: ByteRange, destination: u64)
    requires Inv(t) && t.free != [] && 0 < source.length && source.offset + source.length <= t.cfg.sourceBytes
    requires destination + source.length <= t.cfg.destinationBytes && !Taken(t, destination, source.length)
    ensures Inv(Start(t, t.free[|t.free| - 1], source, destination))
  {
    hide LogOk, Apart, FreeOk, Taken;
    var r := t.free[|t.free| - 1];
    FreeIsFree(t);
    RecordSums(t.records, r, Start(t, r, source, destination).records[r]);
    StartFree(t, source, destination);
    StartApart(t, r, source, destination);
    StartLog(t, r, source, destination);
  }

  lemma FreeIsFree(t: Transfers)
    requires FreeOk(t)
    ensures forall k :: 0 <= k < |t.free| ==> t.free[k] < |t.records| && !InUse(t.records[t.free[k]])
  {
  }

  /** A submit is refused as busy exactly when it would overlap a range still in use, whether held or only
      in flight, and changes nothing when it is refused at all. */
  lemma SubmitInv(t: Transfers, source: ByteRange, destination: u64, accepted: bool)
    requires Inv(t)
    ensures var (q, result) := Submit(t, source, destination, accepted);
      && Inv(q)
      && (result.Refused? ==> q == t)
      && (result == Refused(Busy) <==>
            ValidateRange(source, t.cfg.sourceBytes) == Ok && destination + source.length <= t.cfg.destinationBytes
            && Taken(t, destination, source.length))
      && (result.Claimed? <==>
            ValidateRange(source, t.cfg.sourceBytes) == Ok && destination + source.length <= t.cfg.destinationBytes
            && !Taken(t, destination, source.length) && t.counters.inUse < t.cfg.maxClaims && accepted)
      && (result == Refused(TicketExhausted) <==>
            ValidateRange(source, t.cfg.sourceBytes) == Ok && destination + source.length <= t.cfg.destinationBytes
            && !Taken(t, destination, source.length) && t.counters.inUse == t.cfg.maxClaims)
      && (result == Refused(QueueExhausted) <==>
            ValidateRange(source, t.cfg.sourceBytes) == Ok && destination + source.length <= t.cfg.destinationBytes
            && !Taken(t, destination, source.length) && t.counters.inUse < t.cfg.maxClaims && !accepted)
      && (ValidateRange(source, t.cfg.sourceBytes) != Ok ==>
            result == Refused(ValidateRange(source, t.cfg.sourceBytes)))
      && (ValidateRange(source, t.cfg.sourceBytes) == Ok && destination + source.length > t.cfg.destinationBytes ==>
            result == Refused(OutOfRange))
      && (result.Claimed? ==>
            && result.record < |q.records| && !InUse(t.records[result.record]) && q.records[result.record].held
            && result.generation == q.records[result.record].generation == t.records[result.record].generation + 1)
  {
    hide LogOk, Counted, Apart;
    FreeRoom(t);
    if Submit(t, source, destination, accepted).1.Claimed? {
      StartInv(t, source, destination);
    }
  }

  /** The stack is empty exactly when every record is in use. */
  lemma FreeRoom(t: Transfers)
    requires Inv(t)
    ensures 0 <= t.counters.inUse <= t.cfg.maxClaims
    ensures t.free == [] <==> t.counters.inUse == t.cfg.maxClaims
  {
    hide LogOk, Apart, RecordsOk;
    SumBounds(t.records, UseWeight);
    if t.free == [] {
      AllInUse(t.records);
    } else {
      var r := t.free[0];
      SumUpdate(t.records, r, t.records[r].(state := Submitted), UseWeight);
      SumBounds(t.records[r := t.records[r].(state := Submitted)], UseWeight);
    }
  }

  lemma {:induction false} AllInUse(records: seq<Record>)
    requires forall r :: 0 <= r < |records| ==> InUse(records[r])
    ensures Sum(records, UseWeight) == |records|
  {
    if records != [] {
      assert forall r :: 0 <= r < |records[1..]| ==> records[1..][r] == records[r + 1];
      AllInUse(records[1..]);
    }
  }

  lemma RetireFree(t: Transfers, r: nat)
    requires Shaped(t) && FreeOk(t) && r < |t.records| && InUse(t.records[r])
    ensures FreeOk(Retire(t, r)) && Shaped(Retire(t, r))
  {
    var q := Retire(t, r);
    assert r !in t.free;
    forall i | 0 <= i < |q.records| && !InUse(q.records[i]) ensures i in q.free {
      assert q.free[|t.free|] == r;
      if i != r {
        var k :| 0 <= k < |t.free| && t.free[k] == i;
        assert q.free[k] == i;
      }
    }
  }

  lemma RetireRest(t: Transfers, r: nat)
    requires r < |t.records| && Apart(t.records) && LogOk(t)
    ensures Apart(Retire(t, r).records) && LogOk(Retire(t, r))
  {
    var q := Retire(t, r);
    forall i | 0 <= i < |q.records| && InUse(q.records[i]) ensures Logged(q, i) { assert Logged(t, i); }
  }

  lemma RetireInv(t: Transfers, r: nat)
    requires r < |t.records| && InUse(t.records[r])
    requires Shaped(t) && Apart(t.records) && FreeOk(t) && LogOk(t)
    requires !t.records[r].held && !t.records[r].state.Submitted? && Counted(t)
    requires forall i :: 0 <= i < |t.records| && i != r ==> RecordOk(t.cfg, t.records[i])
    ensures Inv(Retire(t, r))
  {
    hide Apart, LogOk, FreeOk;
    RecordSums(t.records, r, Retire(t, r).records[r]);
    RetireFree(t, r);
    RetireRest(t, r);
  }

  /** One record changes, staying in use with its range and generation. */
  lemma SameRange(t: Transfers, q: Transfers, r: nat)
    requires Inv(t) && r < |t.records| == |q.records| && InUse(t.records[r]) && InUse(q.records[r])
    requires q == t.(records := t.records[r := q.records[r]], heldCount := q.heldCount, counters := q.counters)
    requires q.records[r] == t.records[r].(state := q.records[r].state, result := q.records[r].result,
                                           held := q.records[r].held)
    ensures Shaped(q) && Apart(q.records) && FreeOk(q) && LogOk(q)
    ensures forall i :: 0 <= i < |q.records| && i != r ==> RecordOk(q.cfg, q.records[i])
  {
    forall i | 0 <= i < |q.records| && InUse(q.records[i]) ensures Logged(q, i) { assert Logged(t, i); }
  }

  lemma FinishInv(t: Transfers, r: nat, result: FillResult)
    requires Inv(t) && r < |t.records| && t.records[r].state.Submitted? && result.status != Pending
    ensures var q := Finish(t, r, result);
      if q.records[r].held then Inv(q) else Inv(Retire(q, r))
  {
    hide FreeOk, LogOk, Apart;
    var q := Finish(t, r, result);
    RecordSums(t.records, r, q.records[r]);
    SumBounds(t.records, SubmittedWeight);
    SameRange(t, q, r);
    if !q.records[r].held {
      RetireInv(q, r);
    }
  }

  lemma OnCompleteInv(t: Transfers, token: Token, result: FillResult)
    requires Inv(t) && result.status != Pending
    ensures Inv(OnComplete(t, token, result))
  {
    if Current(t, token) {
      FinishInv(t, token.index, result);
    } else {
      var q := OnComplete(t, token, result);
      forall i | 0 <= i < |q.records| && InUse(q.records[i]) ensures Logged(q, i) { assert Logged(t, i); }
    }
  }

  lemma ReleaseInv(t: Transfers, r: nat)
    requires Inv(t) && r < |t.records| && t.records[r].held
    ensures Inv(ReleaseClaim(t, r))
    ensures var q := ReleaseClaim(t, r);
      && |q.records| == |t.records| && (InUse(q.records[r]) <==> t.records[r].state.Submitted?)
      && q.records[r] == t.records[r].(held := false, state := q.records[r].state)
      && (forall i :: 0 <= i < |t.records| && i != r ==> q.records[i] == t.records[i])
  {
    hide FreeOk, LogOk, Apart;
    var q := t.(records := t.records[r := t.records[r].(held := false)], heldCount := t.heldCount - 1);
    RecordSums(t.records, r, q.records[r]);
    SameRange(t, q, r);
    if !q.records[r].state.Submitted? {
      RetireInv(q, r);
    }
  }

  /** The record of a claim that is over is the next one used. */
  lemma ReusesLast(t: Transfers, r: nat, source: ByteRange, destination: u64, accepted: bool)
    requires Inv(t) && r < |t.records| && t.records[r].held && !t.records[r].state.Submitted?
    ensures var claim := Submit(ReleaseClaim(t, r), source, destination, accepted).1;
      claim.Claimed? ==> claim == Claimed(r, t.records[r].generation + 1)
  {
    hide Taken, Inv;
  }

  /** The first claim of a new set is the first of record 0. */
  lemma FirstClaim(cfg: SetConfig, source: ByteRange, destination: u64, accepted: bool)
    requires cfg.Valid()
    ensures var claim := Submit(Create(cfg), source, destination, accepted).1;
      claim.Claimed? ==> claim == Claimed(0, 1)
  {
    hide Taken;
  }

  /** Exactly when a delivery keeps the invariant: one of the status `pending`, which is no result, would break
      it unless it is stale or its claim has been dropped. */
  lemma OnCompleteExact(t: Transfers, token: Token, result: FillResult)
    requires Inv(t) && Shaped(t)
    ensures Inv(OnComplete(t, token, result)) <==>
      result.status != Pending || !Current(t, token) || !t.records[token.index].held
  {
    hide FreeOk, LogOk, Apart, Counted;
    if result.status != Pending || !Current(t, token) {
      if !Current(t, token) {
        StaleInv(t, token, result);
      } else {
        OnCompleteInv(t, token, result);
      }
    } else if t.records[token.index].held {
      assert !RecordOk(t.cfg, OnComplete(t, token, result).records[token.index]);
    } else {
      DroppedInv(t, token.index, result);
    }
  }

  lemma StaleInv(t: Transfers, token: Token, result: FillResult)
    requires Inv(t) && Shaped(t) && !Current(t, token)
    ensures Inv(OnComplete(t, token, result))
  {
    var q := OnComplete(t, token, result);
    forall i | 0 <= i < |q.records| && InUse(q.records[i]) ensures Logged(q, i) { assert Logged(t, i); }
  }

  lemma DroppedInv(t: Transfers, r: nat, result: FillResult)
    requires Inv(t) && r < |t.records| && t.records[r].state.Submitted? && !t.records[r].held
    ensures Inv(Retire(Finish(t, r, result), r))
  {
    hide FreeOk, LogOk, Apart;
    var q := Finish(t, r, result);
    RecordSums(t.records, r, q.records[r]);
    SumBounds(t.records, SubmittedWeight);
    SameRange(t, q, r);
    RetireInv(q, r);
  }
}
