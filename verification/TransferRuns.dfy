/** Every interleaving of a transfer set's callers with the backend, over the destination's bytes: what
    each claim may rely on from its submit to its release. The backend may do what the contract
    (transfer.hpp) allows, as in PoolRuns. */
module TransferRuns {
  import Sums
  import opened Memory
  import opened Transfer
  import opened PoolState
  import opened TransferModel

  datatype World = World(transfers: Transfers, mem: seq<byte>, source: seq<byte>, delivered: set<Token>)

  datatype Event =
    | Submit(source: ByteRange, destination: u64, accepted: bool)
    | Release(record: nat)
    | Write(token: Token, bytes: seq<byte>)
    | Deliver(token: Token, result: FillResult)

  predicate Outstanding(w: World, token: Token) { token in w.transfers.requests && token !in w.delivered }

  function SourceBytes(w: World, request: Request): seq<byte> { Part(w.source, request.source, request.length) }

  /** A delivery is terminal, and a complete fill has been written. */
  predicate Honest(w: World, token: Token, result: FillResult) {
    && result.status != Pending
    && (Outstanding(w, token) && ClassifyFill(result, w.transfers.requests[token].length) == Ok ==>
          InMemory(w.mem, w.transfers.requests[token].destination, SourceBytes(w, w.transfers.requests[token])))
  }

  predicate Enabled(w: World, e: Event) {
    match e
    case Submit(_, _, _) => true
    case Release(r) => r < |w.transfers.records| && w.transfers.records[r].held
    case Write(t, bytes) =>
      Outstanding(w, t) && |bytes| == w.transfers.requests[t].length
          && w.transfers.requests[t].destination + |bytes| <= |w.mem|
    case Deliver(t, result) => Honest(w, t, result)
  }

  function Apply(w: World, e: Event): (w': World)
    requires Shaped(w.transfers)
    ensures Shaped(w'.transfers) && w'.transfers.cfg == w.transfers.cfg && w'.source == w.source
  {
    if !Enabled(w, e) then w
    else match e
      case Submit(source, destination, accepted) =>
          w.(transfers := TransferModel.Submit(w.transfers, source, destination, accepted).0)
      case Release(r) => w.(transfers := ReleaseClaim(w.transfers, r))
      case Write(t, bytes) => w.(mem := Overwrite(w.mem, w.transfers.requests[t].destination, bytes))
      case Deliver(t, result) =>
        w.(transfers := OnComplete(w.transfers, t, result),
           delivered := if Outstanding(w, t) then w.delivered + {t} else w.delivered)
  }

  // ----- what holds in every reachable world -----

  /** A completed claim's range holds the source's bytes. */
  predicate Holds(w: World, r: nat)
    requires r < |w.transfers.records|
  {
    var token := Token(r, w.transfers.records[r].generation);
    token in w.transfers.requests
        && InMemory(w.mem, w.transfers.records[r].destination, SourceBytes(w, w.transfers.requests[token]))
  }

  predicate MemoryOk(w: World) {
    && |w.mem| == w.transfers.cfg.destinationBytes && |w.source| == w.transfers.cfg.sourceBytes
    && forall r :: 0 <= r < |w.transfers.records| && w.transfers.records[r].state.Completed? ==> Holds(w, r)
  }

  ghost predicate OwedOk(w: World) {
    && w.delivered <= w.transfers.requests.Keys
    && forall t :: Outstanding(w, t) <==> Current(w.transfers, t)
  }

  ghost predicate WorldOk(w: World) { Inv(w.transfers) && MemoryOk(w) && OwedOk(w) }

  lemma CreateOk(cfg: SetConfig, mem: seq<byte>, source: seq<byte>)
    requires cfg.Valid() && |mem| == cfg.destinationBytes && |source| == cfg.sourceBytes
    ensures WorldOk(World(Create(cfg), mem, source, {}))
  {
    CreateInv(cfg);
  }

  /** A write can only reach the range of its own request, which no other record in use shares. */
  lemma RangesApart(w: World, token: Token, r: nat)
    requires Inv(w.transfers) && OwedOk(w) && Outstanding(w, token) && r < |w.transfers.records|
    requires InUse(w.transfers.records[r]) && r != token.index
    ensures var request, record := w.transfers.requests[token], w.transfers.records[r];
      record.destination + record.length <= request.destination
          || request.destination + request.length <= record.destination
  {
    hide FreeOk, Counted;
    assert Current(w.transfers, token);
    assert Logged(w.transfers, token.index) && RecordOk(w.transfers.cfg, w.transfers.records[r]);
    assert RecordOk(w.transfers.cfg, w.transfers.records[token.index]);
  }

  lemma WriteApart(w: World, token: Token, bytes: seq<byte>, r: nat)
    requires Inv(w.transfers) && OwedOk(w) && Enabled(w, Write(token, bytes)) && r < |w.transfers.records|
    requires InUse(w.transfers.records[r]) && r != token.index
    ensures RangeBytes(w.(mem := Overwrite(w.mem, w.transfers.requests[token].destination, bytes)), r)
        == RangeBytes(w, r)
  {
    hide Inv, OwedOk, Overwrite;
    RangesApart(w, token, r);
    var record := w.transfers.records[r];
    if record.destination + record.length <= |w.mem| {
      OverwriteApart(w.mem, w.transfers.requests[token].destination, bytes, record.destination,
                     record.destination + record.length);
    }
  }

  function RangeBytes(w: World, r: nat): seq<byte>
    requires r < |w.transfers.records|
  {
    Part(w.mem, w.transfers.records[r].destination, w.transfers.records[r].length)
  }

  lemma WriteHolds(w: World, token: Token, bytes: seq<byte>, r: nat)
    requires WorldOk(w) && Enabled(w, Write(token, bytes)) && r < |w.transfers.records|
    requires w.transfers.records[r].state.Completed?
    ensures Holds(w.(mem := Overwrite(w.mem, w.transfers.requests[token].destination, bytes)), r)
  {
    hide Inv, Overwrite;
    assert Outstanding(w, token) && Current(w.transfers, token);
    HeldBytes(w, r);
    WriteApart(w, token, bytes, r);
  }

  lemma WriteOk(w: World, token: Token, bytes: seq<byte>)
    requires WorldOk(w) && Shaped(w.transfers) && Enabled(w, Write(token, bytes))
    ensures WorldOk(Apply(w, Write(token, bytes)))
  {
    hide Inv, Overwrite, Holds, InUse;
    var w' := Apply(w, Write(token, bytes));
    forall r | 0 <= r < |w.transfers.records| && w.transfers.records[r].state.Completed? ensures Holds(w', r) {
      WriteHolds(w, token, bytes, r);
    }
    forall t ensures Outstanding(w', t) <==>
        Current(w'.transfers, t) { assert Outstanding(w, t) <==> Outstanding(w', t); }
  }

  lemma HeldBytes(w: World, r: nat)
    requires Inv(w.transfers) && MemoryOk(w) && r < |w.transfers.records| && w.transfers.records[r].state.Completed?
    ensures var record := w.transfers.records[r];
      && record.destination + record.length <= |w.mem| && |RangeBytes(w, r)| == record.length
      && Token(r, record.generation) in w.transfers.requests
      && RangeBytes(w, r) == SourceBytes(w, w.transfers.requests[Token(r, record.generation)])
  {
    hide Apart, FreeOk, Counted;
    assert Holds(w, r) && Logged(w.transfers, r) && RecordOk(w.transfers.cfg, w.transfers.records[r]);
  }

  lemma SubmitOk(w: World, source: ByteRange, destination: u64, accepted: bool)
    requires WorldOk(w)
    ensures WorldOk(Apply(w, Submit(source, destination, accepted)))
  {
    var t := w.transfers;
    SubmitInv(t, source, destination, accepted);
    var (q, result) := TransferModel.Submit(t, source, destination, accepted);
    var w' := w.(transfers := q);
    if result.Claimed? {
      StartedOk(w, source, destination);
    } else {
      assert w' == w;
    }
  }

  lemma StartedOk(w: World, source: ByteRange, destination: nat)
    requires WorldOk(w) && w.transfers.free != []
    ensures var w' := w.(transfers := Start(w.transfers, w.transfers.free[|w.transfers.free| - 1], source,
                                            destination));
      MemoryOk(w') && OwedOk(w')
  {
    var t := w.transfers;
    var r := t.free[|t.free| - 1];
    var w' := w.(transfers := Start(t, r, source, destination));
    var added := Token(r, t.records[r].generation + 1);
    assert added !in t.requests;
    forall i | 0 <= i < |t.records| && w'.transfers.records[i].state.Completed?
      ensures Holds(w', i) { assert Holds(w, i); }
    forall token ensures Outstanding(w', token) <==> Current(w'.transfers, token) {
      assert Outstanding(w, token) <==> Current(t, token);
    }
  }

  /** The record named by a delivery that is still owed is the one being filled; finishing it with ok is
      finishing it with the source's bytes in place. */
  lemma DeliverOk(w: World, token: Token, result: FillResult)
    requires WorldOk(w) && Enabled(w, Deliver(token, result))
    ensures WorldOk(Apply(w, Deliver(token, result)))
  {
    hide Apart, FreeOk, Counted;
    var t := w.transfers;
    var w' := Apply(w, Deliver(token, result));
    OnCompleteInv(t, token, result);
    assert Outstanding(w, token) <==> Current(t, token);
    if Current(t, token) {
      assert Logged(t, token.index);
    }
    forall i | 0 <= i < |t.records| && w'.transfers.records[i].state.Completed? ensures Holds(w', i) {
      if !(Current(t, token) && i == token.index) {
        assert Holds(w, i);
      }
    }
    forall k ensures Outstanding(w', k) <==> Current(w'.transfers, k) {
      assert Outstanding(w, k) <==> Current(t, k);
    }
  }

  lemma ReleaseOk(w: World, r: nat)
    requires WorldOk(w) && Enabled(w, Release(r))
    ensures WorldOk(Apply(w, Release(r)))
  {
    hide Apart, FreeOk, Counted;
    var t := w.transfers;
    var w' := Apply(w, Release(r));
    ReleaseInv(t, r);
    forall i | 0 <= i < |t.records| && w'.transfers.records[i].state.Completed?
      ensures Holds(w', i) { assert Holds(w, i); }
    forall k ensures Outstanding(w', k) <==> Current(w'.transfers, k) {
      assert Outstanding(w, k) <==> Current(t, k);
    }
  }

  lemma EventOk(w: World, e: Event)
    requires WorldOk(w) && Shaped(w.transfers)
    ensures WorldOk(Apply(w, e))
  {
    if Enabled(w, e) {
      match e
      case Submit(source, destination, accepted) => SubmitOk(w, source, destination, accepted);
      case Release(r) => ReleaseOk(w, r);
      case Write(t, bytes) => WriteOk(w, t, bytes);
      case Deliver(t, result) => DeliverOk(w, t, result);
    }
  }

  // ----- runs -----

  /** The world after the first `k` events. */
  function After(w: World, es: seq<Event>, k: nat): (w': World)
    requires Shaped(w.transfers) && k <= |es|
    ensures Shaped(w'.transfers) && w'.transfers.cfg == w.transfers.cfg && w'.source == w.source
  {
    if k == 0 then w else Apply(After(w, es, k - 1), es[k - 1])
  }

  lemma {:induction false} RunOk(w: World, es: seq<Event>, k: nat)
    requires WorldOk(w) && Shaped(w.transfers) && k <= |es|
    ensures WorldOk(After(w, es, k))
  {
    hide WorldOk, Apply;
    if k > 0 {
      RunOk(w, es, k - 1);
      EventOk(After(w, es, k - 1), es[k - 1]);
    }
  }

  // ----- what a claim may rely on -----

  /** The delivery that ends the transfer of record `r`. */
  predicate Ends(w: World, e: Event, r: nat)
    requires r < |w.transfers.records|
  {
    e.Deliver? && e.token == Token(r, w.transfers.records[r].generation) && w.transfers.records[r].state.Submitted?
        && Enabled(w, e)
  }

  /** Only its own delivery and its own release change a record in use: until then it keeps its range, its
      result and, once terminal, its bytes. In particular a claim dropped while pending keeps its range
      reserved until the backend is done with it. */
  lemma RecordKept(w: World, e: Event, r: nat)
    requires WorldOk(w) && Shaped(w.transfers) && r < |w.transfers.records| && InUse(w.transfers.records[r])
    requires e != Release(r) && !Ends(w, e, r)
    ensures var w' := Apply(w, e);
      && |w'.transfers.records| == |w.transfers.records| && w'.transfers.records[r] == w.transfers.records[r]
      && (w.transfers.records[r].state.Completed? || w.transfers.records[r].state.Failed? ==>
           RangeBytes(w', r) == RangeBytes(w, r))
  {
    hide Apart, Counted, LogOk;
    if Enabled(w, e) {
      match e
      case Submit(source, destination, accepted) =>
      case Release(i) =>
      case Write(token, bytes) =>
        assert Outstanding(w, token) && Current(w.transfers, token);
        if r != token.index {
          WriteApart(w, token, bytes, r);
        }
      case Deliver(token, result) =>
    }
  }

  lemma InDestination(w: World, r: nat)
    requires Inv(w.transfers) && MemoryOk(w) && r < |w.transfers.records| && InUse(w.transfers.records[r])
    ensures w.transfers.records[r].destination + w.transfers.records[r].length <= |w.mem|
  {
    assert RecordOk(w.transfers.cfg, w.transfers.records[r]);
  }

  /** A claim that is terminal keeps its result and its bytes until it is released, whatever else happens
      in between. */
  lemma {:induction false} ClaimKept(w: World, es: seq<Event>, k: nat, r: nat)
    requires WorldOk(w) && Shaped(w.transfers) && k <= |es| && r < |w.transfers.records|
    requires w.transfers.records[r].state.Completed? || w.transfers.records[r].state.Failed?
    requires Release(r) !in es[..k]
    ensures var w' := After(w, es, k);
      && |w'.transfers.records| == |w.transfers.records| && w'.transfers.records[r] == w.transfers.records[r]
      && RangeBytes(w', r) == RangeBytes(w, r)
      && ClaimStatus(w'.transfers, r, true) == ClaimStatus(w.transfers, r, true) == w.transfers.records[r].result
  {
    hide WorldOk, Apply, RangeBytes, Shaped, Enabled;
    if k > 0 {
      assert es[..k] == es[..k - 1] + [es[k - 1]];
      ClaimKept(w, es, k - 1, r);
      RunOk(w, es, k - 1);
      RecordKept(After(w, es, k - 1), es[k - 1], r);
    }
  }

  /** The delivery of a transfer decides its claim's status: ok, or the very failure delivered. */
  lemma ResultOfDelivery(w: World, e: Event, r: nat)
    requires WorldOk(w) && Shaped(w.transfers) && r < |w.transfers.records| && w.transfers.records[r].held
    requires Ends(w, e, r)
    ensures var t := Apply(w, e).transfers;
      && |t.records| == |w.transfers.records|
      && t.records[r].held && t.records[r].generation == w.transfers.records[r].generation
      && t.records[r].result == ClassifyFill(e.result, w.transfers.records[r].length)
      && (t.records[r].state.Completed? || t.records[r].state.Failed?)
      && (t.records[r].state.Completed? <==> t.records[r].result == Ok)
  {
  }

  /** ... and it stays that until the claim is released, over every run. */
  lemma ResultStays(w: World, e: Event, es: seq<Event>, k: nat, r: nat)
    requires WorldOk(w) && Shaped(w.transfers) && r < |w.transfers.records| && w.transfers.records[r].held
    requires Ends(w, e, r) && k <= |es| && Release(r) !in es[..k]
    ensures var t := After(Apply(w, e), es, k).transfers;
      && r < |t.records|
      && (forall block :: ClaimStatus(t, r, block) == ClassifyFill(e.result, w.transfers.records[r].length))
  {
    hide WorldOk, Apply, Ends, RangeBytes, Shaped;
    ResultOfDelivery(w, e, r);
    EventOk(w, e);
    ClaimKept(Apply(w, e), es, k, r);
  }

  // ----- claims are current, and no two are alike -----

  predicate GenerationsGrow(t: Transfers, q: Transfers) {
    |q.records| == |t.records| && forall r :: 0 <= r < |t.records| ==>
        t.records[r].generation <= q.records[r].generation
  }

  lemma {:induction false} GenerationsRun(w: World, es: seq<Event>, j: nat, k: nat)
    requires WorldOk(w) && Shaped(w.transfers) && j <= k <= |es|
    ensures GenerationsGrow(After(w, es, j).transfers, After(w, es, k).transfers)
  {
    hide WorldOk, Apply, Shaped;
    if j < k {
      GenerationsRun(w, es, j, k - 1);
      RunOk(w, es, k - 1);
      GenerationsStep(After(w, es, k - 1), es[k - 1]);
    }
  }

  lemma GenerationsStep(w: World, e: Event)
    requires WorldOk(w) && Shaped(w.transfers)
    ensures GenerationsGrow(w.transfers, Apply(w, e).transfers)
  {
    hide Apart, Counted, RecordsOk, MemoryOk, OwedOk, LogOk, Taken;
  }

  /** The submit of event `k` handed out the claim. */
  predicate ClaimedAt(w: World, es: seq<Event>, k: nat, record: nat, generation: nat)
    requires Shaped(w.transfers)
  {
    && k < |es| && es[k].Submit?
    && TransferModel.Submit(After(w, es, k).transfers, es[k].source, es[k].destination, es[k].accepted).1
         == Claimed(record, generation)
  }

  /** No two submits of a run hand out the same claim. */
  lemma NoTwoAlike(w: World, es: seq<Event>, j: nat, k: nat, record: nat, first: nat, second: nat)
    requires WorldOk(w) && Shaped(w.transfers) && j < k
    requires ClaimedAt(w, es, j, record, first) && ClaimedAt(w, es, k, record, second)
    ensures first < second
  {
    hide WorldOk, Shaped, Taken;
    RunOk(w, es, j);
    RunOk(w, es, k);
    SubmitStarts(After(w, es, j), es[j].source, es[j].destination, es[j].accepted);
    assert After(w, es, j + 1) == Apply(After(w, es, j), es[j]);
    GenerationsRun(w, es, j + 1, k);
  }

  /** What the owner of an ok claim reads is the part of the source it asked for. */
  lemma OkMeansSource(w: World, r: nat)
    requires WorldOk(w) && r < |w.transfers.records| && InUse(w.transfers.records[r])
    ensures ClaimStatus(w.transfers, r, false) == Ok <==> w.transfers.records[r].state.Completed?
    ensures ClaimStatus(w.transfers, r, false) == Ok ==>
      var token := Token(r, w.transfers.records[r].generation);
      && token in w.transfers.requests
      && var request := w.transfers.requests[token];
         && request.source + request.length <= |w.source|
         && RangeBytes(w, r) == w.source[request.source..request.source + request.length]
  {
    hide Apart, Counted, FreeOk;
    assert RecordOk(w.transfers.cfg, w.transfers.records[r]) && Logged(w.transfers, r);
    if w.transfers.records[r].state.Completed? {
      HeldBytes(w, r);
      InDestination(w, r);
    }
  }

  /** While a claim is held, its record keeps its generation and range, through its delivery as well. */
  predicate SameClaim(w: World, w': World, r: nat) {
    && r < |w.transfers.records| == |w'.transfers.records|
    && (var a, b := w.transfers.records[r], w'.transfers.records[r];
        a.held && b.held && b.generation == a.generation && b.destination == a.destination && b.length == a.length)
    && forall t :: t in w.transfers.requests ==>
         t in w'.transfers.requests && w'.transfers.requests[t] == w.transfers.requests[t]
  }

  lemma SameClaimStep(w: World, e: Event, r: nat)
    requires WorldOk(w) && Shaped(w.transfers) && r < |w.transfers.records| && w.transfers.records[r].held
    requires e != Release(r)
    ensures SameClaim(w, Apply(w, e), r)
  {
    hide Apart, Counted, RecordsOk, MemoryOk, OwedOk, LogOk;
    forall t | t in w.transfers.requests
      ensures t in Apply(w, e).transfers.requests && Apply(w, e).transfers.requests[t] == w.transfers.requests[t] {
      RequestsKept(w, e, t);
    }
    HeldInUse(w.transfers, r);
  }

  lemma HeldInUse(t: Transfers, r: nat)
    requires Inv(t) && r < |t.records| && t.records[r].held
    ensures InUse(t.records[r])
  {
    assert RecordOk(t.cfg, t.records[r]);
  }

  lemma {:induction false} SameClaimRun(w: World, es: seq<Event>, k: nat, r: nat)
    requires WorldOk(w) && Shaped(w.transfers) && k <= |es| && r < |w.transfers.records| && w.transfers.records[r].held
    requires Release(r) !in es[..k]
    ensures SameClaim(w, After(w, es, k), r)
  {
    hide WorldOk, Apply, Shaped;
    if k > 0 {
      assert es[..k] == es[..k - 1] + [es[k - 1]];
      SameClaimRun(w, es, k - 1, r);
      RunOk(w, es, k - 1);
      SameClaimStep(After(w, es, k - 1), es[k - 1], r);
    }
  }

  /** From submit to release: a claim names the destination range its submit asked for, and whenever its
      status is ok that range holds exactly the source range its submit asked for. */
  lemma SubmittedBytes(w: World, source: ByteRange, destination: u64, accepted: bool, es: seq<Event>, k: nat)
    requires WorldOk(w) && Shaped(w.transfers) && k <= |es|
    requires TransferModel.Submit(w.transfers, source, destination, accepted).1.Claimed?
    requires Release(TransferModel.Submit(w.transfers, source, destination, accepted).1.record) !in es[..k]
    ensures var claim := TransferModel.Submit(w.transfers, source, destination, accepted).1;
      var w' := After(Apply(w, Submit(source, destination, accepted)), es, k);
      var r := claim.record;
      && r < |w'.transfers.records|
      && var record := w'.transfers.records[r];
         && record.held && record.generation == claim.generation
         && record.destination == destination && record.length == source.length
         && (ClaimStatus(w'.transfers, r, false) == Ok ==>
               source.offset + source.length <= |w.source|
                   && RangeBytes(w', r) == w.source[source.offset..source.offset + source.length])
  {
    hide WorldOk, Inv, Shaped, RangeBytes;
    var claim := TransferModel.Submit(w.transfers, source, destination, accepted).1;
    var w1 := Apply(w, Submit(source, destination, accepted));
    EventOk(w, Submit(source, destination, accepted));
    SubmitStarts(w, source, destination, accepted);
    SameClaimRun(w1, es, k, claim.record);
    RunOk(w1, es, k);
    OkWhenHeld(After(w1, es, k), claim.record);
  }

  lemma SubmitStarts(w: World, source: ByteRange, destination: u64, accepted: bool)
    requires Shaped(w.transfers) && TransferModel.Submit(w.transfers, source, destination, accepted).1.Claimed?
    ensures var claim := TransferModel.Submit(w.transfers, source, destination, accepted).1;
      var t := Apply(w, Submit(source, destination, accepted)).transfers;
      var token := Token(claim.record, claim.generation);
      && claim.record < |t.records|
      && t.records[claim.record] == Record(destination, source.length, claim.generation, Submitted, Pending, true)
      && token in t.requests && t.requests[token] == RequestOf(source, destination, claim.record, claim.generation)
  {
  }

  lemma OkWhenHeld(w: World, r: nat)
    requires WorldOk(w) && r < |w.transfers.records| && w.transfers.records[r].held
    ensures ClaimStatus(w.transfers, r, false) == Ok ==>
      var token := Token(r, w.transfers.records[r].generation);
      && token in w.transfers.requests
      && var request := w.transfers.requests[token];
         && request.source + request.length <= |w.source|
         && RangeBytes(w, r) == w.source[request.source..request.source + request.length]
  {
    HeldInUse(w.transfers, r);
    OkMeansSource(w, r);
  }

  /** Some accepted request had position `x` in its destination. */
  predicate Requested(w: World, x: nat) {
    exists t :: t in w.transfers.requests
        && w.transfers.requests[t].destination <= x
        && x < w.transfers.requests[t].destination + w.transfers.requests[t].length
  }

  lemma UntouchedStep(w: World, e: Event, x: nat)
    requires WorldOk(w) && Shaped(w.transfers) && x < |w.mem| && !Requested(Apply(w, e), x)
    ensures |Apply(w, e).mem| == |w.mem| && Apply(w, e).mem[x] == w.mem[x] && !Requested(w, x)
  {
    var w' := Apply(w, e);
    forall t | t in w.transfers.requests
      ensures t in w'.transfers.requests && w'.transfers.requests[t] == w.transfers.requests[t] {
      RequestsKept(w, e, t);
    }
  }

  /** Requests are only ever added. */
  lemma RequestsKept(w: World, e: Event, t: Token)
    requires WorldOk(w) && Shaped(w.transfers) && t in w.transfers.requests
    ensures t in Apply(w, e).transfers.requests && Apply(w, e).transfers.requests[t] == w.transfers.requests[t]
  {
    hide Apart, Counted, RecordsOk, MemoryOk, OwedOk;
    assert t.generation <= w.transfers.records[t.index].generation;
  }

  /** Bytes outside every range ever submitted are never written. */
  lemma {:induction false} Untouched(w: World, es: seq<Event>, k: nat, x: nat)
    requires WorldOk(w) && Shaped(w.transfers) && k <= |es| && x < |w.mem| && !Requested(After(w, es, k), x)
    ensures |After(w, es, k).mem| == |w.mem| && After(w, es, k).mem[x] == w.mem[x]
  {
    hide WorldOk, Apply, Requested, Shaped;
    if k > 0 {
      RunOk(w, es, k - 1);
      SizeKept(w, es, k - 1);
      UntouchedStep(After(w, es, k - 1), es[k - 1], x);
      Untouched(w, es, k - 1, x);
    }
  }

  lemma SizeKept(w: World, es: seq<Event>, k: nat)
    requires WorldOk(w) && Shaped(w.transfers) && k <= |es|
    ensures |After(w, es, k).mem| == |w.mem|
  {
    RunOk(w, es, k);
  }

  /** With no claim held and nothing in flight, every record, and so every range, may be used again. */
  lemma Quiescent(t: Transfers)
    requires Inv(t) && t.heldCount == 0 && t.counters.inFlight == 0
    ensures forall r :: 0 <= r < |t.records| ==> !InUse(t.records[r]) && r in t.free
    ensures t.counters.inUse == 0 && t.counters.submitted == t.counters.completed + t.counters.failed
  {
    hide LogOk, Apart;
    Sums.SumBounds(t.records, HeldWeight);
    Sums.SumBounds(t.records, SubmittedWeight);
    forall r | 0 <= r < |t.records| ensures !InUse(t.records[r]) {
      assert HeldWeight(t.records[r]) <= 0 && SubmittedWeight(t.records[r]) <= 0 && RecordOk(t.cfg, t.records[r]);
    }
    Sums.SumBounds(t.records, UseWeight);
  }

  // ----- the counters over runs -----

  /** What a delivery was for the set: of no transfer it was owed, of all the bytes, or of a failure. */
  datatype Kind = Stale | Filled | Failing

  function KindOf(w: World, e: Event): Option<Kind> {
    if !e.Deliver? || !Enabled(w, e) then None
    else if !Outstanding(w, e.token) then Some(Stale)
    else if ClassifyFill(e.result, w.transfers.requests[e.token].length) == Ok then Some(Filled)
    else Some(Failing)
  }

  /** Deliveries of the kind among the first `k` events, and the bytes of those that completed a transfer. */
  function Count(w: World, es: seq<Event>, k: nat, kind: Kind): nat
    requires Shaped(w.transfers) && k <= |es|
  {
    if k == 0 then 0
    else Count(w, es, k - 1, kind) + if KindOf(After(w, es, k - 1), es[k - 1]) == Some(kind) then 1 else 0
  }

  function Bytes(w: World, es: seq<Event>, k: nat): nat
    requires Shaped(w.transfers) && k <= |es|
  {
    if k == 0 then 0
    else
      var before := After(w, es, k - 1);
      Bytes(w, es, k - 1) +
      if KindOf(before, es[k - 1]) == Some(Filled) then before.transfers.requests[es[k - 1].token].length else 0
  }

  lemma TallyStep(w: World, e: Event)
    requires WorldOk(w) && Shaped(w.transfers)
    ensures var kind := KindOf(w, e);
      var c, c' := w.transfers.counters, Apply(w, e).transfers.counters;
      && c'.stale == c.stale + (if kind == Some(Stale) then 1 else 0)
      && c'.failed == c.failed + (if kind == Some(Failing) then 1 else 0)
      && c'.completed == c.completed + (if kind == Some(Filled) then 1 else 0)
      && c'.bytesRead == c.bytesRead + (if kind == Some(Filled) then w.transfers.requests[e.token].length else 0)
    ensures |Apply(w, e).transfers.requests| - |w.transfers.requests|
            == Apply(w, e).transfers.counters.submitted - w.transfers.counters.submitted
  {
    hide Apart, Counted, MemoryOk, RecordsOk;
    if e.Deliver? && Enabled(w, e) {
      assert Outstanding(w, e.token) <==> Current(w.transfers, e.token);
      if Current(w.transfers, e.token) {
        assert Logged(w.transfers, e.token.index);
      }
    }
    if e.Submit? {
      SubmitCounts(w.transfers, e.source, e.destination, e.accepted);
    }
  }

  lemma SubmitCounts(t: Transfers, source: ByteRange, destination: u64, accepted: bool)
    requires Inv(t) && Shaped(t)
    ensures var q := TransferModel.Submit(t, source, destination, accepted).0;
      |q.requests| - |t.requests| == q.counters.submitted - t.counters.submitted
  {
    hide Apart, Counted, RecordsOk, Taken, FreeOk, LogOk, Start;
    if TransferModel.Submit(t, source, destination, accepted).1.Claimed? {
      StartCounts(t, t.free[|t.free| - 1], source, destination);
    }
  }

  lemma StartCounts(t: Transfers, r: nat, source: ByteRange, destination: nat)
    requires LogOk(t) && r < |t.records| && t.free != []
    ensures var q := Start(t, r, source, destination);
      |q.requests| == |t.requests| + 1 && q.counters.submitted == t.counters.submitted + 1
  {
    var token := Token(r, t.records[r].generation + 1);
    assert token !in t.requests;
    assert Start(t, r, source, destination).requests.Keys == t.requests.Keys + {token};
  }

  /** Over any run of a new set, each delivery counter is the number of the deliveries of its kind, bytes_read
      is the bytes of the completed transfers, and every transfer the backend accepted completed, failed, or is
      in flight. */
  lemma {:induction false} TransfersAccountedFor(cfg: SetConfig, mem: seq<byte>, source: seq<byte>, es: seq<Event>,
        k: nat)
    requires cfg.Valid() && |mem| == cfg.destinationBytes && |source| == cfg.sourceBytes && k <= |es|
    ensures var w := World(Create(cfg), mem, source, {});
      var t := After(w, es, k).transfers;
      && t.counters.stale == Count(w, es, k, Stale) && t.counters.failed == Count(w, es, k, Failing)
      && t.counters.completed == Count(w, es, k, Filled) && t.counters.bytesRead == Bytes(w, es, k)
      && |t.requests| == t.counters.submitted
           == Count(w, es, k, Filled) + Count(w, es, k, Failing) + t.counters.inFlight
  {
    hide WorldOk, Apply, KindOf, Inv, Shaped;
    var w := World(Create(cfg), mem, source, {});
    CreateOk(cfg, mem, source);
    RunOk(w, es, k);
    CountsInWorld(After(w, es, k));
    if k > 0 {
      TransfersAccountedFor(cfg, mem, source, es, k - 1);
      RunOk(w, es, k - 1);
      TallyStep(After(w, es, k - 1), es[k - 1]);
    }
  }

  lemma CountsInWorld(w: World)
    requires WorldOk(w)
    ensures w.transfers.counters.submitted
        == w.transfers.counters.completed + w.transfers.counters.failed + w.transfers.counters.inFlight
  {
  }
}
