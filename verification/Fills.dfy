/** The fills a SlotPool asks for, as requests of the uncached mode: with aligned slots every one is valid. */
module Fills {
  import opened Transfer
  import opened Products
  import opened PoolState
  import opened ChunkTiling
  import opened DirectRead
  import M = PoolModel
  import P = PoolRuns
  import S = PoolSteps

  // ----- uncached fills -----

  lemma Multiple(a: nat, b: nat)
    requires b % BLOCK == 0
    ensures a * b % BLOCK == 0
  {
    var k := b / BLOCK;
    DivBounds(a * b, BLOCK, a * k);
    assert a * b == a * k * BLOCK;
  }

  /** What a chunk's fill asks for, as 64-bit numbers. */
  lemma FillBounds(cfg: Config, slot: nat, generation: nat, chunk: nat)
    requires cfg.Valid() && slot < cfg.numSlots && chunk * cfg.slotBytes < cfg.sourceBytes
    ensures var r := RequestFor(cfg, slot, generation, chunk);
      && 0 < r.length <= cfg.slotBytes && r.source + r.length <= cfg.sourceBytes
      && (r.length == cfg.slotBytes || r.source + r.length == cfg.sourceBytes)
      && r.destination + r.length <= cfg.slotBytes * cfg.numSlots
  {
    SlotRegion(cfg, slot);
  }

  /** With slots and storage aligned to the block, and the pool's source size the registered file's, every
      fill a pool can ask for passes the uncached check: all but the last chunk are whole slots, and the
      last one runs to the end of the file. */
  lemma FillsAreValid(cfg: Config, base: nat, slot: nat, generation: nat, chunk: nat)
    requires cfg.Valid() && slot < cfg.numSlots && chunk * cfg.slotBytes < cfg.sourceBytes
    requires base % BLOCK == 0 && cfg.slotBytes % BLOCK == 0
    ensures var r := RequestFor(cfg, slot, generation, chunk);
      && r.source <= U64_MAX && UncachedValid(r.source, r.length, base + r.destination, cfg.sourceBytes)
  {
    var r := RequestFor(cfg, slot, generation, chunk);
    FillBounds(cfg, slot, generation, chunk);
    Multiple(chunk, cfg.slotBytes);
    Multiple(slot, cfg.slotBytes);
    AlignedSum(base, r.destination);
    hide UncachedValid;
    UncachedValidMeaning(r.source, r.length, base + r.destination, cfg.sourceBytes);
  }

  predicate FillValid(cfg: Config, base: nat, slot: nat, chunk: nat)
    requires cfg.Valid() && slot < cfg.numSlots && chunk * cfg.slotBytes < cfg.sourceBytes
  {
    var r := RequestFor(cfg, slot, 0, chunk);
    r.source <= U64_MAX && UncachedValid(r.source, r.length, base + r.destination, cfg.sourceBytes)
  }

  lemma ValidFill(cfg: Config, base: nat, slot: nat, chunk: nat)
    requires cfg.Valid() && slot < cfg.numSlots && chunk * cfg.slotBytes < cfg.sourceBytes
    requires base % BLOCK == 0 && cfg.slotBytes % BLOCK == 0
    ensures FillValid(cfg, base, slot, chunk)
  {
    hide UncachedValid;
    FillsAreValid(cfg, base, slot, 0, chunk);
  }

  lemma Misaligned(cfg: Config, base: nat, slot: nat)
    requires cfg.Valid() && slot < cfg.numSlots && (base + slot * cfg.slotBytes) % BLOCK != 0
    ensures 0 * cfg.slotBytes < cfg.sourceBytes && !FillValid(cfg, base, slot, 0)
  {
  }

  /** The first or the second slot shows it. */
  lemma MisalignedSlot(base: nat, slotBytes: nat)
    requires base % BLOCK != 0 || slotBytes % BLOCK != 0
    ensures (base + (if base % BLOCK != 0 then 0 else 1) * slotBytes) % BLOCK != 0
  {
  }

  /** In a pool of more than one slot the alignment is also necessary. */
  lemma AlignmentIsExact(cfg: Config, base: nat)
    requires cfg.Valid() && 1 < cfg.numSlots
    ensures (forall slot: nat, chunk: nat :: slot < cfg.numSlots && chunk * cfg.slotBytes < cfg.sourceBytes ==>
        FillValid(cfg, base, slot, chunk))
            <==> base % BLOCK == 0 && cfg.slotBytes % BLOCK == 0
  {
    hide FillValid;
    if base % BLOCK == 0 && cfg.slotBytes % BLOCK == 0 {
      forall slot: nat, chunk: nat | slot < cfg.numSlots && chunk * cfg.slotBytes < cfg.sourceBytes
        ensures FillValid(cfg, base, slot, chunk) {
        ValidFill(cfg, base, slot, chunk);
      }
    } else {
      var slot: nat := if base % BLOCK != 0 then 0 else 1;
      MisalignedSlot(base, cfg.slotBytes);
      var first: nat := 0;
      assert first * cfg.slotBytes < cfg.sourceBytes;
      Misaligned(cfg, base, slot);
    }
  }

  // ----- what a pool is owed -----

  /** Every fill the pool is owed lies in the storage and in the source. */
  lemma RequestFits(w: P.World, t: Token)
    requires P.WorldOk(w) && M.Shaped(w.pool) && P.Outstanding(w, t)
    ensures t.index < |w.pool.slots| && M.Current(w.pool, t)
    ensures var r := w.pool.requests[t];
      && r.destination + r.length <= |w.mem| && r.source + r.length <= w.pool.cfg.sourceBytes
      && w.pool.slots[t.index].state.Filling?
      && r == RequestFor(w.pool.cfg, t.index, t.generation, w.pool.slots[t.index].chunk)
      && w.pool.slots[t.index].chunk * w.pool.cfg.slotBytes < w.pool.cfg.sourceBytes
  {
    P.OwedRequest(w, t);
    S.SlotIsOk(w.pool, t.index);
    FillBounds(w.pool.cfg, t.index, t.generation, w.pool.slots[t.index].chunk);
  }

  /** Every request a pool is owed passes the uncached check, in every reachable world. */
  lemma OwedIsValid(w: P.World, t: Token, base: nat)
    requires P.WorldOk(w) && M.Shaped(w.pool) && P.Outstanding(w, t)
    requires base % BLOCK == 0 && w.pool.cfg.slotBytes % BLOCK == 0
    ensures var r := w.pool.requests[t];
      && r.source <= U64_MAX && r.length <= U64_MAX
      && UncachedValid(r.source, r.length, base + r.destination, w.pool.cfg.sourceBytes)
  {
    hide P.WorldOk, UncachedValid;
    RequestFits(w, t);
    FillBounds(w.pool.cfg, t.index, t.generation, w.pool.slots[t.index].chunk);
    FillsAreValid(w.pool.cfg, base, t.index, t.generation, w.pool.slots[t.index].chunk);
  }
}
