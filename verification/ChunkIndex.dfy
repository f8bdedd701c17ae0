/** The chunk index of SlotPool (slot_pool.hpp, index_home .. index_erase): open addressing with linear
    probing and backward-shift deletion. Cells hold slot numbers; the key of a cell is read through the
    slot. `at` is the inverse of the cells: where each indexed slot is stored. Everything here holds for
    any home function into the table. */
module ChunkIndex {
  import opened Transfer
  import opened Products
  import opened Sums
  import opened PoolState

  // ----- cyclic positions -----

  function Next(p: nat, n: nat): (q: nat)
    requires p < n
    ensures q < n
  {
    if p + 1 == n then 0 else p + 1
  }

  /** Steps forward from `a` to `b` in a table of `n` cells. */
  function Dist(a: nat, b: nat, n: nat): (d: nat)
    requires a < n && b < n
    ensures d < n && (d == 0 <==> a == b)
  {
    if a <= b then b - a else b + n - a
  }

  // ----- the multiplicative hash -----

  function Pow2(k: nat): (m: nat)
    ensures 0 < m
  {
    if k == 0 then 1 else 2 * Pow2(k - 1)
  }

  lemma {:induction false} Pow2Product(j: nat, k: nat)
    ensures Pow2(j + k) == Pow2(j) * Pow2(k)
  {
    if j > 0 {
      Pow2Product(j - 1, k);
    }
  }

  const MULTIPLIER: nat := 0x9E37_79B9_7F4A_7C15

  /** The least exponent whose power of two is at least `n`: std::bit_ceil, by its exponent. */
  function CeilLog2(n: nat): (k: nat)
    requires 0 < n
    ensures n <= Pow2(k) && (0 < k ==> Pow2(k - 1) < n)
  {
    if n == 1 then 0
    else
      var k := CeilLog2((n + 1) / 2);
      assert Pow2(k + 1) == 2 * Pow2(k);
      if k == 0 then 1 else assert 2 * Pow2(k - 1) == Pow2(k); k + 1
  }

  /** The low 64 bits of the product. */
  function Mul64(chunk: nat): (x: nat)
    ensures x < WORD
  {
    chunk * MULTIPLIER % WORD
  }

  /** `(chunk * multiplier) >> shift` in 64-bit arithmetic. */
  function Hash(chunk: nat, shift: nat): nat { ShiftRight(Mul64(chunk), shift) }

  function ShiftRight(x: nat, k: nat): nat {
    DivBounds(x, Pow2(k), 0);
    x / Pow2(k)
  }

  /** With a shift of 64 - k the hash is a home function into a table of 2^k cells. */
  lemma HashInTable(chunk: nat, k: nat)
    requires k <= 64
    ensures Hash(chunk, 64 - k) < Pow2(k)
  {
    hide Mul64, Pow2;
    Pow2Product(k, 64 - k);
    WordIsPow2();
    var n, d := Pow2(k), Pow2(64 - k);
    assert (n - 1) * d + d == n * d;
    DivBounds(Mul64(chunk), d, n - 1);
  }

  lemma HalfWord()
    ensures Pow2(32) == 0x1_0000_0000
  {
    assert Pow2(1) == 2;
    hide Pow2;
    Pow2Square(1, 2);
    Pow2Square(2, 4);
    Pow2Square(4, 0x10);
    Pow2Square(8, 0x100);
    Pow2Square(16, 0x1_0000);
  }

  lemma WordIsPow2()
    ensures Pow2(64) == WORD
  {
    hide Pow2;
    HalfWord();
    Pow2Square(32, 0x1_0000_0000);
  }

  lemma Pow2Square(k: nat, m: nat)
    requires Pow2(k) == m
    ensures Pow2(2 * k) == m * m
  {
    hide Pow2;
    Pow2Product(k, k);
    assert k + k == 2 * k;
  }

  lemma TableDivides(k: nat)
    requires k <= 63
    ensures Pow2(k) * (Pow2(64 - k) - 1) == WORD - Pow2(k)
  {
    hide Pow2;
    Pow2Product(k, 64 - k);
    WordIsPow2();
  }

  lemma ModOf(x: nat, n: nat, times: nat)
    requires x < n
    ensures (x + n * times) % n == x
  {
    var v := x + n * times;
    DivBounds(v, n, times);
    assert v / n == times;
    assert v == n * (v / n) + v % n;
  }

  /** Masking with a table size of 2^k is the cyclic step and the cyclic distance, also across the
      64-bit wrap of the subtraction. */
  lemma MaskIsCyclic(p: nat, q: nat, k: nat)
    requires k <= 63 && p < Pow2(k) && q < Pow2(k)
    ensures (p + 1) % Pow2(k) == Next(p, Pow2(k))
    ensures ((q + WORD - p) % WORD) % Pow2(k) == Dist(p, q, Pow2(k))
  {
    hide Pow2;
    TableDivides(k);
    MaskedStep(p, Pow2(k));
    MaskedDifference(p, q, Pow2(k), Pow2(64 - k));
  }

  lemma MaskedStep(p: nat, n: nat)
    requires p < n
    ensures (p + 1) % n == Next(p, n)
  {
    if p + 1 < n {
      ModOf(p + 1, n, 0);
    } else {
      ModOf(0, n, 1);
    }
  }

  lemma MaskedDifference(p: nat, q: nat, n: nat, m: nat)
    requires p < n && q < n && 0 < m && n * (m - 1) == WORD - n
    ensures ((q + WORD - p) % WORD) % n == Dist(p, q, n)
  {
    if p <= q {
      ModOf(q - p, WORD, 1);
      ModOf(q - p, n, 0);
    } else {
      ModOf(q + WORD - p, WORD, 0);
      ModOf(q + n - p, n, m - 1);
    }
  }

  // ----- the table -----

  /** Each slot is stored where `at` says and nowhere else. */
  predicate Stored(index: seq<int>, at: map<int, nat>) {
    && (forall s :: s in at ==> at[s] < |index| && index[at[s]] == s)
    && (forall p :: 0 <= p < |index| && index[p] != NONE ==> 0 <= index[p] && index[p] in at && at[index[p]] == p)
  }

  /** The indexed slots are slots, and no two of them have the same chunk. */
  predicate Keyed(slots: seq<Slot>, at: map<int, nat>) {
    && (forall s :: s in at ==> 0 <= s < |slots|)
    && (forall s, t :: s in at && t in at && s != t ==> slots[s].chunk != slots[t].chunk)
  }

  /** Probing from its home reaches cell `p` before any empty cell. */
  predicate Reached(index: seq<int>, home: nat, p: nat)
    requires home < |index| && p < |index|
  {
    forall q :: 0 <= q < |index| && Dist(home, q, |index|) < Dist(home, p, |index|) ==> index[q] != NONE
  }

  ghost predicate AllReached(index: seq<int>, slots: seq<Slot>, at: map<int, nat>, home: nat -> nat) {
    forall s :: s in at ==>
      0 <= s < |slots| && at[s] < |index| && home(slots[s].chunk) < |index|
          && Reached(index, home(slots[s].chunk), at[s])
  }

  ghost predicate IndexOk(index: seq<int>, slots: seq<Slot>, at: map<int, nat>, home: nat -> nat) {
    |slots| < |index| && Stored(index, at) && Keyed(slots, at) && AllReached(index, slots, at, home)
  }

  // ----- there is always an empty cell -----

  lemma {:induction false} OccupiedCount(index: seq<int>, at: map<int, nat>, n: nat)
    requires Stored(index, at) && n <= |index| && forall p :: 0 <= p < n ==> index[p] != NONE
    ensures var s := set p | 0 <= p < n :: index[p];
      |s| == n && forall x :: x in s ==> 0 <= x && x in at
  {
    var s := set p | 0 <= p < n :: index[p];
    if n == 0 {
      assert s == {};
    } else {
      OccupiedCount(index, at, n - 1);
      var before := set p | 0 <= p < n - 1 :: index[p];
      assert s == before + {index[n - 1]};
      if index[n - 1] in before {
        assert false;
      }
    }
  }

  lemma EmptyCell(index: seq<int>, slots: seq<Slot>, at: map<int, nat>) returns (e: nat)
    requires |slots| < |index| && Stored(index, at) && Keyed(slots, at)
    ensures e < |index| && index[e] == NONE
  {
    if forall p :: 0 <= p < |index| ==> index[p] != NONE {
      OccupiedCount(index, at, |index|);
      var s := set p | 0 <= p < |index| :: index[p];
      assert s <= Below(|slots|);
      SubsetSize(s, Below(|slots|));
      assert false;
    }
    e :| 0 <= e < |index| && index[e] == NONE;
  }

  /** The index does not notice changes to slots that leave the chunks of indexed slots alone. */
  lemma IndexFrame(index: seq<int>, slots: seq<Slot>, slots': seq<Slot>, at: map<int, nat>, home: nat -> nat)
    requires IndexOk(index, slots, at, home) && |slots'| == |slots|
    requires forall s :: s in at ==> 0 <= s < |slots| && slots'[s].chunk == slots[s].chunk
    ensures IndexOk(index, slots', at, home)
  {
    forall s | s in at ensures Reached(index, home(slots'[s].chunk), at[s]) {
      assert Reached(index, home(slots[s].chunk), at[s]);
    }
  }

  // ----- probing -----

  /** The cells between the home of a chunk and `pos` are occupied by other chunks. */
  predicate Probed(index: seq<int>, slots: seq<Slot>, home: nat, pos: nat, chunk: nat)
    requires home < |index| && pos < |index|
  {
    forall q :: 0 <= q < |index| && Dist(home, q, |index|) < Dist(home, pos, |index|) ==>
      0 <= index[q] < |slots| && slots[index[q]].chunk != chunk
  }

  /** A probe that reaches an empty cell has shown that no indexed slot has the chunk. */
  lemma ProbeMiss(index: seq<int>, slots: seq<Slot>, at: map<int, nat>, home: nat -> nat, chunk: nat, pos: nat, s: int)
    requires IndexOk(index, slots, at, home) && home(chunk) < |index| && pos < |index|
    requires Probed(index, slots, home(chunk), pos, chunk) && index[pos] == NONE && s in at
    ensures slots[s].chunk != chunk
  {
    assert Reached(index, home(slots[s].chunk), at[s]);
  }

  /** One step along a probe, short of `end`. */
  lemma DistNext(a: nat, p: nat, end: nat, n: nat)
    requires a < n && p < n && end < n && Dist(a, p, n) < Dist(a, end, n)
    ensures Dist(a, Next(p, n), n) == Dist(a, p, n) + 1 <= Dist(a, end, n)
  {
  }

  lemma ProbeStep(index: seq<int>, slots: seq<Slot>, home: nat, pos: nat, chunk: nat, empty: nat)
    requires home < |index| && pos < |index| && empty < |index| && Probed(index, slots, home, pos, chunk)
    requires Dist(home, pos, |index|) < Dist(home, empty, |index|)
    requires 0 <= index[pos] < |slots| && slots[index[pos]].chunk != chunk
    ensures Probed(index, slots, home, Next(pos, |index|), chunk)
  {
    DistNext(home, pos, empty, |index|);
  }

  lemma ReachStep(index: seq<int>, home: nat, pos: nat, empty: nat)
    requires home < |index| && pos < |index| && empty < |index| && Reached(index, home, pos) && index[pos] != NONE
    requires Dist(home, pos, |index|) < Dist(home, empty, |index|)
    ensures Reached(index, home, Next(pos, |index|))
  {
    DistNext(home, pos, empty, |index|);
  }

  lemma ProbeStart(index: seq<int>, slots: seq<Slot>, home: nat, empty: nat, chunk: nat)
    requires home < |index| && empty < |index|
    ensures Probed(index, slots, home, home, chunk) && Dist(home, home, |index|) <= Dist(home, empty, |index|)
  {
  }

  lemma ReachStart(index: seq<int>, home: nat, empty: nat)
    requires home < |index| && empty < |index|
    ensures Reached(index, home, home) && Dist(home, home, |index|) <= Dist(home, empty, |index|)
  {
  }

  lemma OnTheWayStart(home: nat, end: nat, n: nat)
    requires home < n && end < n
    ensures Dist(home, home, n) <= Dist(home, end, n)
  {
  }

  /** Two cells at most as far as each other from a third, and different, are not equally far. */
  lemma NotYet(home: nat, pos: nat, end: nat, n: nat)
    requires home < n && pos < n && end < n && pos != end && Dist(home, pos, n) <= Dist(home, end, n)
    ensures Dist(home, pos, n) < Dist(home, end, n)
  {
  }

  lemma EmptyAhead(start: nat, empty: nat, n: nat)
    requires start < n && empty < n && start != empty
    ensures Dist(start, start, n) < Dist(start, Next(start, n), n) <= Dist(start, empty, n)
  {
  }

  lemma KeyedMoved(slots: seq<Slot>, at: map<int, nat>, s: int, p: nat)
    requires Keyed(slots, at) && s in at
    ensures Keyed(slots, at[s := p])
  {
  }

  /** A stored cell names an indexed slot. */
  lemma CellIsSlot(index: seq<int>, slots: seq<Slot>, at: map<int, nat>, home: nat -> nat, pos: nat)
    requires IndexOk(index, slots, at, home) && pos < |index| && index[pos] != NONE
    ensures index[pos] in at && 0 <= index[pos] < |slots| && at[index[pos]] == pos
  {
  }

  /** The cell between a chunk's home and its slot's cell: occupied, and the chunk's own only at the end. */
  lemma OnTheWay(index: seq<int>, slots: seq<Slot>, at: map<int, nat>, home: nat -> nat, victim: int, pos: nat)
    requires IndexOk(index, slots, at, home) && victim in at && pos < |index|
    requires 0 <= victim < |slots| && home(slots[victim].chunk) < |index| && at[victim] < |index|
    requires Dist(home(slots[victim].chunk), pos, |index|) <= Dist(home(slots[victim].chunk), at[victim], |index|)
    ensures index[pos] in at && 0 <= index[pos] < |slots|
    ensures slots[index[pos]].chunk == slots[victim].chunk <==> pos == at[victim]
    ensures pos != at[victim] ==>
      Dist(home(slots[victim].chunk), pos, |index|) < Dist(home(slots[victim].chunk), at[victim], |index|)
  {
    assert Reached(index, home(slots[victim].chunk), at[victim]);
  }

  lemma VictimCell(index: seq<int>, slots: seq<Slot>, at: map<int, nat>, home: nat -> nat, victim: int)
    requires IndexOk(index, slots, at, home) && victim in at
    ensures 0 <= victim < |slots| && at[victim] < |index| && index[at[victim]] == victim
    ensures home(slots[victim].chunk) < |index|
  {
  }

  /** Storing a slot in the first empty cell of its chunk's probe sequence. */
  lemma InsertOk(index: seq<int>, slots: seq<Slot>, at: map<int, nat>, home: nat -> nat, slot: nat, pos: nat)
    requires IndexOk(index, slots, at, home) && slot < |slots| && slot !in at && pos < |index| && index[pos] == NONE
    requires forall s :: s in at ==> slots[s].chunk != slots[slot].chunk
    requires home(slots[slot].chunk) < |index| && Reached(index, home(slots[slot].chunk), pos)
    ensures IndexOk(index[pos := slot], slots, at[slot := pos], home)
  {
    var index', at' := index[pos := slot], at[slot := pos];
    forall s | s in at' ensures Reached(index', home(slots[s].chunk), at'[s]) {
      if s != slot {
        assert Reached(index, home(slots[s].chunk), at[s]);
      }
    }
  }

  // ----- backward-shift deletion -----

  /** In the middle of a deletion: `hole` no longer stores a slot, though its cell still shows an old
      value. Every other indexed slot is reached, counting the hole as occupied, and those whose probe
      passes the hole lie at `pos` or beyond. */
  ghost predicate Shifting(index: seq<int>, slots: seq<Slot>, at: map<int, nat>, home: nat -> nat, hole: nat,
                           pos: nat) {
    && hole < |index| && pos < |index| && index[hole] != NONE
    && (forall s :: s in at ==> 0 <= s < |slots| && at[s] < |index| && at[s] != hole && index[at[s]] == s)
    && (forall p :: 0 <= p < |index| && p != hole && index[p] != NONE ==>
         0 <= index[p] && index[p] in at && at[index[p]] == p)
    && (forall s :: s in at ==> home(slots[s].chunk) < |index| && Reached(index, home(slots[s].chunk), at[s]))
    && (forall s :: s in at && Passes(index, home(slots[s].chunk), hole, at[s]) ==>
          Dist(hole, pos, |index|) <= Dist(hole, at[s], |index|))
  }

  /** The probe from `home` to cell `p` goes through `hole`. */
  predicate Passes(index: seq<int>, home: nat, hole: nat, p: nat)
    requires home < |index| && hole < |index| && p < |index|
  {
    Dist(home, hole, |index|) < Dist(home, p, |index|)
  }

  /** The source's test moves an entry exactly when its probe passes the hole. */
  lemma ShiftTest(home: nat, hole: nat, pos: nat, n: nat)
    requires home < n && hole < n && pos < n && hole != pos
    ensures Dist(home, pos, n) >= Dist(hole, pos, n) <==> Dist(home, hole, n) < Dist(home, pos, n)
  {
  }

  /** What one turn of the scan relies on: the scanned cell is not the hole and stores a slot, the
      source's test is whether that slot's probe passes the hole, and the scan stays ahead of the hole
      on its way to an empty cell. */
  lemma ShiftReady(index: seq<int>, slots: seq<Slot>, at: map<int, nat>, home: nat -> nat, start: nat, hole: nat,
                   pos: nat, empty: nat)
    requires Shifting(index, slots, at, home, hole, pos) && start < |index| && empty < |index|
    requires hole < |index| && pos < |index| && index[pos] != NONE && index[empty] == NONE
    requires Dist(start, hole, |index|) < Dist(start, pos, |index|) <= Dist(start, empty, |index|)
    ensures hole != pos && index[pos] in at && 0 <= index[pos] < |slots| && home(slots[index[pos]].chunk) < |index|
    ensures Dist(home(slots[index[pos]].chunk), pos, |index|) >= Dist(hole, pos, |index|) <==>
      Passes(index, home(slots[index[pos]].chunk), hole, pos)
    ensures Dist(start, Next(pos, |index|), |index|) == Dist(start, pos, |index|) + 1 <= Dist(start, empty, |index|)
    ensures Next(pos, |index|) != hole
  {
    ShiftTest(home(slots[index[pos]].chunk), hole, pos, |index|);
    DistNext(start, pos, empty, |index|);
  }

  /** Deletion starts with the deleted slot's cell as the hole. */
  lemma ShiftStart(index: seq<int>, slots: seq<Slot>, at: map<int, nat>, home: nat -> nat, victim: int)
    requires IndexOk(index, slots, at, home) && victim in at
    ensures at[victim] < |index| && Shifting(index, slots, at - {victim}, home, at[victim], Next(at[victim], |index|))
    ensures Keyed(slots, at - {victim})
  {
    var at' := at - {victim};
    var hole := at[victim];
    forall s | s in at' ensures Reached(index, home(slots[s].chunk), at'[s]) { assert s in at; }
    forall s | s in at' && Passes(index, home(slots[s].chunk), hole, at'[s])
      ensures Dist(hole, Next(hole, |index|), |index|) <= Dist(hole, at'[s], |index|) {
      assert at[s] != hole;
    }
  }

  /** An entry whose probe passes the hole moves into it, and its old cell becomes the hole. */
  lemma ShiftMove(index: seq<int>, slots: seq<Slot>, at: map<int, nat>, home: nat -> nat, hole: nat, pos: nat)
    requires Shifting(index, slots, at, home, hole, pos) && pos != hole && index[pos] != NONE
    requires Passes(index, home(slots[index[pos]].chunk), hole, pos)
    ensures Shifting(index[hole := index[pos]], slots, at[index[pos] := hole], home, pos, Next(pos, |index|))
    ensures at[index[pos] := hole].Keys == at.Keys
  {
    var index', at' := index[hole := index[pos]], at[index[pos] := hole];
    forall s | s in at' ensures Reached(index', home(slots[s].chunk), at'[s]) {
      assert Reached(index, home(slots[s].chunk), at[s]);
    }
    forall s | s in at' && Passes(index', home(slots[s].chunk), pos, at'[s])
      ensures Dist(pos, Next(pos, |index|), |index|) <= Dist(pos, at'[s], |index|) {
      assert at'[s] != pos;
    }
  }

  /** An entry whose probe does not pass the hole stays. */
  lemma ShiftSkip(index: seq<int>, slots: seq<Slot>, at: map<int, nat>, home: nat -> nat, hole: nat, pos: nat)
    requires Shifting(index, slots, at, home, hole, pos) && pos != hole && index[pos] != NONE
    requires !Passes(index, home(slots[index[pos]].chunk), hole, pos) && Next(pos, |index|) != hole
    ensures Shifting(index, slots, at, home, hole, Next(pos, |index|))
  {
    forall s | s in at && Passes(index, home(slots[s].chunk), hole, at[s])
      ensures Dist(hole, Next(pos, |index|), |index|) <= Dist(hole, at[s], |index|) {
      assert at[s] != pos;
    }
  }

  /** When the scan meets an empty cell the hole can be emptied: no probe passes it any more. */
  lemma ShiftEnd(index: seq<int>, slots: seq<Slot>, at: map<int, nat>, home: nat -> nat, hole: nat, pos: nat)
    requires Shifting(index, slots, at, home, hole, pos) && index[pos] == NONE && |slots| < |index| && Keyed(slots, at)
    ensures IndexOk(index[hole := NONE], slots, at, home)
  {
    var index' := index[hole := NONE];
    forall s | s in at ensures Reached(index', home(slots[s].chunk), at[s]) {
      assert Reached(index, home(slots[s].chunk), at[s]);
    }
  }
}
