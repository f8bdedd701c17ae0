/** Request normalisation (slot_pool.hpp, for_each_chunk, validate_batch, make_lease): a batch of byte
    ranges becomes a sequence of chunk segments, and the leases cut from them tile the ranges. */
module ChunkTiling {
  import opened Transfer
  import opened PoolState
  import opened Products

  function FirstChunk(slotBytes: nat, range: ByteRange): nat
    requires 0 < slotBytes
  {
    range.offset / slotBytes
  }

  function LastChunk(slotBytes: nat, range: ByteRange): (last: nat)
    requires 0 < slotBytes && 0 < range.length
  {
    (range.offset + range.length - 1) / slotBytes
  }

  /** The first and the last chunk overlap the range, and so does every chunk between them. */
  lemma ChunkBounds(slotBytes: nat, range: ByteRange, chunk: nat)
    requires 0 < slotBytes && 0 < range.length
    ensures FirstChunk(slotBytes, range) <= LastChunk(slotBytes, range)
    ensures FirstChunk(slotBytes, range) <= chunk <= LastChunk(slotBytes, range) <==>
      chunk * slotBytes < range.offset + range.length && range.offset < chunk * slotBytes + slotBytes
  {
    DivBounds(range.offset, slotBytes, chunk);
    DivBounds(range.offset + range.length - 1, slotBytes, chunk);
    DivBounds(range.offset, slotBytes, LastChunk(slotBytes, range));
    DivBounds(range.offset + range.length - 1, slotBytes, LastChunk(slotBytes, range));
  }

  function RangeSegments(slotBytes: nat, range: ByteRange): (segments: seq<Segment>)
    requires 0 < slotBytes && 0 < range.length
  {
    ChunkBounds(slotBytes, range, 0);
    var first := FirstChunk(slotBytes, range);
    seq(LastChunk(slotBytes, range) - first + 1, i requires 0 <= i => Segment(first + i, range))
  }

  /** The segments of the first `k` ranges, in request order. */
  function SegmentsUpTo(slotBytes: nat, ranges: seq<ByteRange>, k: nat): seq<Segment>
    requires 0 < slotBytes && k <= |ranges|
    requires forall j :: 0 <= j < k ==> 0 < ranges[j].length
  {
    if k == 0 then [] else SegmentsUpTo(slotBytes, ranges, k - 1) + RangeSegments(slotBytes, ranges[k - 1])
  }

  function Segments(slotBytes: nat, ranges: seq<ByteRange>): seq<Segment>
    requires 0 < slotBytes
    requires forall j :: 0 <= j < |ranges| ==> 0 < ranges[j].length
  {
    SegmentsUpTo(slotBytes, ranges, |ranges|)
  }

  /** The range lies in the source and the chunk overlaps it. */
  predicate SegmentOk(cfg: Config, segment: Segment) {
    var Segment(chunk, range) := segment;
    && 0 < range.length && range.offset + range.length <= cfg.sourceBytes
    && chunk * cfg.slotBytes < range.offset + range.length
    && range.offset < chunk * cfg.slotBytes + cfg.slotBytes
  }

  datatype BatchCheck = BatchCheck(status: Status, chunks: nat)

  /** `validate_batch` after its first `k` ranges: the first range that fails decides. */
  function CheckUpTo(cfg: Config, ranges: seq<ByteRange>, k: nat): (c: BatchCheck)
    requires 0 < cfg.slotBytes && k <= |ranges|
    ensures c.chunks <= cfg.maxBatch
  {
    if k == 0 then BatchCheck(Ok, 0)
    else
      var before := CheckUpTo(cfg, ranges, k - 1);
      var range := ranges[k - 1];
      var valid := ValidateRange(range, cfg.sourceBytes);
      if before.status != Ok then before
      else if valid != Ok then BatchCheck(valid, before.chunks)
      else
        ChunkBounds(cfg.slotBytes, range, 0);
        var span := LastChunk(cfg.slotBytes, range) - FirstChunk(cfg.slotBytes, range) + 1;
        if span > cfg.maxBatch - before.chunks then BatchCheck(BatchTooLarge, before.chunks)
        else BatchCheck(Ok, before.chunks + span)
  }

  function CheckBatch(cfg: Config, ranges: seq<ByteRange>): BatchCheck
    requires 0 < cfg.slotBytes
  {
    var c := CheckUpTo(cfg, ranges, |ranges|);
    if c.status == Ok && c.chunks == 0 then BatchCheck(EmptyRange, 0) else c
  }

  /** The first `k` ranges are non-empty and inside the source. */
  predicate Inside(cfg: Config, ranges: seq<ByteRange>, k: nat)
    requires k <= |ranges|
  {
    forall j :: 0 <= j < k ==> ValidateRange(ranges[j], cfg.sourceBytes) == Ok
  }

  lemma {:induction false} CheckUpToMeaning(cfg: Config, ranges: seq<ByteRange>, k: nat)
    requires 0 < cfg.slotBytes && k <= |ranges|
    ensures var c := CheckUpTo(cfg, ranges, k);
      && (c.status == Ok ==> Inside(cfg, ranges, k) && c.chunks == |SegmentsUpTo(cfg.slotBytes, ranges, k)|)
      && (Inside(cfg, ranges, k) && |SegmentsUpTo(cfg.slotBytes, ranges, k)| <= cfg.maxBatch ==> c.status == Ok)
  {
    if k > 0 {
      CheckUpToMeaning(cfg, ranges, k - 1);
      if ValidateRange(ranges[k - 1], cfg.sourceBytes) == Ok {
        ChunkBounds(cfg.slotBytes, ranges[k - 1], 0);
      }
    }
  }

  /** The first range that fails decides for the whole batch. */
  lemma {:induction false} CheckFails(cfg: Config, ranges: seq<ByteRange>, k: nat)
    requires 0 < cfg.slotBytes && k <= |ranges| && CheckUpTo(cfg, ranges, k).status != Ok
    ensures CheckBatch(cfg, ranges) == CheckUpTo(cfg, ranges, k)
  {
    CheckStuck(cfg, ranges, k, |ranges|);
  }

  lemma {:induction false} CheckStuck(cfg: Config, ranges: seq<ByteRange>, k: nat, n: nat)
    requires 0 < cfg.slotBytes && k <= n <= |ranges| && CheckUpTo(cfg, ranges, k).status != Ok
    ensures CheckUpTo(cfg, ranges, n) == CheckUpTo(cfg, ranges, k)
  {
    if k < n {
      CheckStuck(cfg, ranges, k, n - 1);
    }
  }

  /** The first `j` ranges pass, and the next one decides: it is empty or outside the source, or with its chunks
      the batch names more than the bound. */
  predicate Decides(cfg: Config, ranges: seq<ByteRange>, j: nat, status: Status)
    requires 0 < cfg.slotBytes && j < |ranges|
  {
    && Inside(cfg, ranges, j) && |SegmentsUpTo(cfg.slotBytes, ranges, j)| <= cfg.maxBatch
    && if ValidateRange(ranges[j], cfg.sourceBytes) != Ok then status == ValidateRange(ranges[j], cfg.sourceBytes)
       else status == BatchTooLarge && |SegmentsUpTo(cfg.slotBytes, ranges, j + 1)| > cfg.maxBatch
  }

  lemma {:induction false} CheckUpToDecides(cfg: Config, ranges: seq<ByteRange>, k: nat)
    requires 0 < cfg.slotBytes && k <= |ranges| && CheckUpTo(cfg, ranges, k).status != Ok
    ensures exists j :: 0 <= j < k && Decides(cfg, ranges, j, CheckUpTo(cfg, ranges, k).status)
  {
    if CheckUpTo(cfg, ranges, k - 1).status != Ok {
      CheckUpToDecides(cfg, ranges, k - 1);
    } else {
      CheckUpToMeaning(cfg, ranges, k - 1);
      assert Decides(cfg, ranges, k - 1, CheckUpTo(cfg, ranges, k).status);
    }
  }

  /** Why a batch fails: no range at all, or the first range that does not pass decides. */
  lemma CheckBatchFailure(cfg: Config, ranges: seq<ByteRange>)
    requires cfg.Valid()
    ensures var status := CheckBatch(cfg, ranges).status;
      && (ranges == [] ==> status == EmptyRange)
      && (ranges != [] && status != Ok ==> exists j :: 0 <= j < |ranges| && Decides(cfg, ranges, j, status))
  {
    var c := CheckUpTo(cfg, ranges, |ranges|);
    if c.status != Ok {
      CheckUpToDecides(cfg, ranges, |ranges|);
    } else if ranges != [] {
      CheckUpToMeaning(cfg, ranges, |ranges|);
      SomeSegments(cfg, ranges);
    }
  }

  lemma SomeSegments(cfg: Config, ranges: seq<ByteRange>)
    requires 0 < cfg.slotBytes && ranges != [] && Inside(cfg, ranges, |ranges|)
    ensures 0 < |Segments(cfg.slotBytes, ranges)|
  {
    ChunkBounds(cfg.slotBytes, ranges[|ranges| - 1], 0);
  }

  /** A batch passes exactly when every range is inside the source and the batch names between one and
      `maxBatch` chunks; the count returned is the number of segments. */
  lemma CheckBatchMeaning(cfg: Config, ranges: seq<ByteRange>)
    requires cfg.Valid()
    ensures var c := CheckBatch(cfg, ranges);
      && (c.status == Ok <==>
            Inside(cfg, ranges, |ranges|) && 0 < |Segments(cfg.slotBytes, ranges)| <= cfg.maxBatch)
      && (c.status == Ok ==> c.chunks == |Segments(cfg.slotBytes, ranges)|)
  {
    CheckUpToMeaning(cfg, ranges, |ranges|);
  }

  lemma {:induction false} SegmentsOk(cfg: Config, ranges: seq<ByteRange>, k: nat)
    requires 0 < cfg.slotBytes && k <= |ranges| && Inside(cfg, ranges, k)
    ensures forall i :: 0 <= i < |SegmentsUpTo(cfg.slotBytes, ranges, k)| ==>
      SegmentOk(cfg, SegmentsUpTo(cfg.slotBytes, ranges, k)[i])
  {
    if k > 0 {
      SegmentsOk(cfg, ranges, k - 1);
      RangeSegmentsOk(cfg, ranges[k - 1]);
    }
  }

  /** The part of the segment's range that lies in its chunk, as a lease on `slot` (make_lease). */
  function LeaseFor(cfg: Config, slot: nat, generation: nat, segment: Segment): (lease: Lease)
    requires cfg.Valid() && SegmentOk(cfg, segment)
    ensures lease.slot == slot && lease.generation == generation && 0 < lease.length
    ensures lease.source == segment.chunk * cfg.slotBytes + lease.at
    ensures lease.at + lease.length <= ChunkLength(cfg, segment.chunk)
    ensures segment.range.offset <= lease.source
    ensures lease.source + lease.length <= segment.range.offset + segment.range.length
  {
    var start := segment.chunk * cfg.slotBytes;
    var begin := Max(segment.range.offset, start);
    var end := Min(segment.range.offset + segment.range.length, start + ChunkLength(cfg, segment.chunk));
    Lease(slot, generation, begin - start, begin, end - begin)
  }

  lemma RangeSegmentsOk(cfg: Config, range: ByteRange)
    requires 0 < cfg.slotBytes && ValidateRange(range, cfg.sourceBytes) == Ok
    ensures forall j :: 0 <= j < |RangeSegments(cfg.slotBytes, range)| ==>
      SegmentOk(cfg, RangeSegments(cfg.slotBytes, range)[j])
  {
    var segments := RangeSegments(cfg.slotBytes, range);
    forall i | 0 <= i < |segments| ensures SegmentOk(cfg, segments[i]) {
      ChunkBounds(cfg.slotBytes, range, segments[i].chunk);
    }
  }

  /** Where the i-th segment of a range lies relative to the range's ends and to the next segment. */
  lemma SegmentAt(cfg: Config, range: ByteRange, i: nat)
    requires 0 < cfg.slotBytes && ValidateRange(range, cfg.sourceBytes) == Ok
    requires i < |RangeSegments(cfg.slotBytes, range)|
    ensures var segments := RangeSegments(cfg.slotBytes, range);
      var start := segments[i].chunk * cfg.slotBytes;
      && segments[i].range == range && SegmentOk(cfg, segments[i])
      && (i == 0 ==> start <= range.offset)
      && (i == |segments| - 1 ==> range.offset + range.length <= start + cfg.slotBytes)
      && (i < |segments| - 1 ==>
            segments[i + 1] == Segment(segments[i].chunk + 1, range)
            && segments[i + 1].chunk * cfg.slotBytes == start + cfg.slotBytes < range.offset + range.length)
  {
    var s := cfg.slotBytes;
    var chunk := RangeSegments(s, range)[i].chunk;
    ChunkBounds(s, range, chunk);
    DivBounds(range.offset, s, FirstChunk(s, range));
    DivBounds(range.offset + range.length - 1, s, LastChunk(s, range));
    DivBounds(range.offset + range.length - 1, s, chunk + 1);
    NextStart(chunk, s);
  }

  lemma NextStart(chunk: nat, s: nat)
    ensures (chunk + 1) * s == chunk * s + s
  {
  }

  /** The leases of one range, one per chunk, are consecutive, start at its offset, end at its end and
      are therefore an exact cover of it, whichever slots they land in. */
  lemma RangeTiling(cfg: Config, range: ByteRange, i: nat, slot: nat, generation: nat, slot': nat, generation': nat)
    requires cfg.Valid() && ValidateRange(range, cfg.sourceBytes) == Ok
    requires i < |RangeSegments(cfg.slotBytes, range)|
    ensures SegmentOk(cfg, RangeSegments(cfg.slotBytes, range)[i])
    ensures var segments := RangeSegments(cfg.slotBytes, range);
      var lease := LeaseFor(cfg, slot, generation, segments[i]);
      && (i == 0 ==> lease.source == range.offset)
      && (i == |segments| - 1 ==> lease.source + lease.length == range.offset + range.length)
      && (i < |segments| - 1 ==>
            SegmentOk(cfg, segments[i + 1]) &&
            var next := LeaseFor(cfg, slot', generation', segments[i + 1]);
            lease.source + lease.length == next.source && next.at == 0)
  {
    hide RangeSegments, FirstChunk, LastChunk;
    SegmentAt(cfg, range, i);
    if i < |RangeSegments(cfg.slotBytes, range)| - 1 {
      SegmentAt(cfg, range, i + 1);
    }
  }

  /** A lease stays inside its chunk (the last chunk being clipped at the end of the source), hence
      inside its slot's part of the storage span; no 64-bit product or sum on the way wraps. */
  lemma LeaseInside(cfg: Config, segment: Segment, slot: nat, generation: nat)
    requires cfg.Valid() && SegmentOk(cfg, segment) && slot < cfg.numSlots
    ensures var lease := LeaseFor(cfg, slot, generation, segment);
      && 0 < lease.length && lease.at + lease.length <= cfg.slotBytes
      && slot * cfg.slotBytes + lease.at + lease.length <= cfg.slotBytes * cfg.numSlots <= U64_MAX
    ensures segment.chunk + 1 <= U64_MAX
    ensures segment.chunk * cfg.slotBytes <= segment.chunk * cfg.slotBytes + ChunkLength(cfg, segment.chunk) <= U64_MAX
  {
    hide LeaseFor;
    SlotRegion(cfg, slot);
    ChunkFits(cfg, segment);
  }

  lemma ChunkFits(cfg: Config, segment: Segment)
    requires cfg.Valid() && SegmentOk(cfg, segment)
    ensures segment.chunk + 1 <= U64_MAX
    ensures 0 <= segment.chunk * cfg.slotBytes
    ensures segment.chunk * cfg.slotBytes + ChunkLength(cfg, segment.chunk) <= U64_MAX
  {
    NotLess(segment.chunk, cfg.slotBytes);
  }

  /** A slot's part of the storage lies inside it. */
  lemma SlotRegion(cfg: Config, slot: nat)
    requires slot < cfg.numSlots
    ensures slot * cfg.slotBytes + cfg.slotBytes <= cfg.slotBytes * cfg.numSlots
  {
    Apart(slot, cfg.numSlots, cfg.slotBytes);
  }

  /** Two slots' parts of the storage do not overlap. */
  lemma SlotsApart(cfg: Config, a: nat, b: nat)
    requires a < b
    ensures a * cfg.slotBytes + cfg.slotBytes <= b * cfg.slotBytes
  {
    Apart(a, b, cfg.slotBytes);
  }
}
