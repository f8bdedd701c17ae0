/** CLOCK victim selection (slot_pool.hpp, claim_victim), stated without its loop: which slot the sweep
    takes, how many slots it passes over, and whose reference bits it clears. */
module ClockSweep {
  import opened Transfer
  import opened PoolState
  import opened Products

  predicate Takeable(s: Slot) { s.pins == 0 && (s.state.Free? || (s.state.Ready? && !s.referenced)) }

  predicate Evictable(s: Slot) { s.pins == 0 && s.state.Ready? }

  /** The slot `k` steps ahead of the hand, and the number of steps from the hand to slot `i`. */
  function Ahead(hand: nat, k: nat, n: nat): (i: nat)
    requires hand < n && k <= n
    ensures i < n
    ensures k < n ==> Steps(hand, i, n) == k
  {
    if hand + k < n then hand + k else hand + k - n
  }

  function Steps(hand: nat, i: nat, n: nat): (k: nat)
    requires hand < n && i < n
    ensures k < n
  {
    if hand <= i then i - hand else i + n - hand
  }

  /** The fewest steps, at least `k`, from the hand to a slot that `pick` accepts; |slots| if there is none. */
  function FirstFrom(slots: seq<Slot>, hand: nat, pick: Slot -> bool, k: nat): (r: nat)
    requires hand < |slots| && k <= |slots|
    ensures k <= r <= |slots|
    ensures r < |slots| ==> pick(slots[Ahead(hand, r, |slots|)])
    ensures forall j :: k <= j < r ==> !pick(slots[Ahead(hand, j, |slots|)])
    decreases |slots| - k
  {
    if k == |slots| || pick(slots[Ahead(hand, k, |slots|)]) then k else FirstFrom(slots, hand, pick, k + 1)
  }

  /** Steps a sweep takes at most. The source counts them in 32 bits, so the two revolutions of a declared
      sweep are cut short when twice the slot count does not fit. */
  function Span(admission: AdmissionClass, n: nat): (steps: nat)
    ensures steps <= 2 * n
  {
    if admission.Speculative? then n else 2 * n % 0x1_0000_0000
  }

  /** The slot counts for which two revolutions can be counted. */
  predicate CountsTwice(n: nat) { n < 0x8000_0000 }

  /** `slot` is the victim or NONE; the bits of evictable slots fewer than `cleared` steps ahead are cleared. */
  datatype Outcome = Outcome(slot: int, hand: nat, cleared: nat)

  function Sweep(slots: seq<Slot>, hand: nat, admission: AdmissionClass): (o: Outcome)
    requires hand < |slots|
    ensures o.hand < |slots| && o.cleared <= |slots| && (o.slot == NONE || 0 <= o.slot < |slots|)
    ensures o.slot != NONE ==> o.hand == Ahead(o.slot, 1, |slots|)
  {
    var n := |slots|;
    var span := Span(admission, n);
    var first := FirstFrom(slots, hand, Takeable, 0);
    var second := FirstFrom(slots, hand, Evictable, 0);
    if first < n && first < span
        then Outcome(Ahead(hand, first, n), Ahead(hand, first + 1, n), ClearedAt(admission, first, n))
    else if first == n && second < n && n + second < span
        then Outcome(Ahead(hand, second, n), Ahead(hand, second + 1, n), n)
    else Outcome(NONE, HandAt(hand, span, n), ClearedAt(admission, span, n))
  }

  function ClearBits(slots: seq<Slot>, hand: nat, cleared: nat): (r: seq<Slot>)
    requires hand < |slots|
    ensures |r| == |slots|
    ensures forall i {:trigger r[i]} :: 0 <= i < |slots| ==>
      r[i] == if Evictable(slots[i]) && Steps(hand, i, |slots|) < cleared then slots[i].(referenced := false)
          else slots[i]
  {
    seq(|slots|, i requires 0 <= i < |slots| =>
      if Evictable(slots[i]) && Steps(hand, i, |slots|) < cleared then slots[i].(referenced := false) else slots[i])
  }

  lemma FirstIsLeast(slots: seq<Slot>, hand: nat, pick: Slot -> bool)
    requires hand < |slots|
    ensures forall i {:trigger slots[i]} :: 0 <= i < |slots| && pick(slots[i]) ==>
      FirstFrom(slots, hand, pick, 0) <= Steps(hand, i, |slots|)
  {
    forall i | 0 <= i < |slots| && pick(slots[i]) ensures FirstFrom(slots, hand, pick, 0) <= Steps(hand, i, |slots|) {
      assert Ahead(hand, Steps(hand, i, |slots|), |slots|) == i;
    }
  }

  /** Whom a sweep takes. Speculative admission finds a victim exactly when some slot is unpinned and free or
      unreferenced, and it clears nothing. Declared admission, in a pool whose two revolutions can be
      counted, finds one exactly when some slot is unpinned and free or ready. Either prefers, in cyclic
      order from the hand, a slot that is free or unreferenced, and declared admission falls back to the
      first unpinned ready slot. */
  lemma SweepChoice(slots: seq<Slot>, hand: nat, admission: AdmissionClass)
    requires hand < |slots|
    ensures var o := Sweep(slots, hand, admission);
      && (admission.Declared? && CountsTwice(|slots|) ==>
            (o.slot == NONE <==> forall i :: 0 <= i < |slots| ==> !Takeable(slots[i]) && !Evictable(slots[i])))
      && (admission.Speculative? ==>
            o.cleared == 0 && (o.slot == NONE <==> forall i :: 0 <= i < |slots| ==> !Takeable(slots[i])))
      && (o.slot != NONE && Takeable(slots[o.slot]) ==> forall i :: 0 <= i < |slots| && Takeable(slots[i]) ==>
            Steps(hand, o.slot, |slots|) <= Steps(hand, i, |slots|))
      && (o.slot != NONE && !Takeable(slots[o.slot]) ==>
            admission.Declared? && Evictable(slots[o.slot]) &&
            forall i :: 0 <= i < |slots| ==>
                 (!Takeable(slots[i]) && (Evictable(slots[i]) ==>
                    Steps(hand, o.slot, |slots|) <= Steps(hand, i, |slots|))))
  {
    hide FirstFrom, HandAt;
    FirstIsLeast(slots, hand, Takeable);
    FirstIsLeast(slots, hand, Evictable);
  }

  /** What is left of a declared sweep whose two revolutions cannot be counted: part of the first one. */
  lemma SweepCutShort(slots: seq<Slot>, hand: nat)
    requires hand < |slots| < 0xFFFF_FFFF && !CountsTwice(|slots|)
    ensures var span := 2 * |slots| - 0x1_0000_0000;
      Sweep(slots, hand, Declared).slot == NONE <==>
      forall i :: 0 <= i < |slots| && Steps(hand, i, |slots|) < span ==> !Takeable(slots[i])
  {
    FirstIsLeast(slots, hand, Takeable);
    var n, span := |slots|, 2 * |slots| - 0x1_0000_0000;
    assert Span(Declared, n) == span;
    var first := FirstFrom(slots, hand, Takeable, 0);
    if first < span {
      assert Steps(hand, Ahead(hand, first, n), n) == first;
    }
  }

  /** Where a sweep from `hand` leaves the hand: right after its victim, so that the slot just claimed is the last
      one the next sweep looks at in its first revolution; without a victim, where the counted steps end, which
      is where it was after whole revolutions. */
  predicate HandMoved(hand: nat, moved: nat, victim: int, admission: AdmissionClass, n: nat)
    requires hand < n && victim < n
  {
    && moved < n
    && (0 <= victim ==>
          && moved == (if victim + 1 == n then 0 else victim + 1)
          && forall i :: 0 <= i < n && i != victim ==> Steps(moved, i, n) < Steps(moved, victim, n))
    && (victim < 0 ==> moved == (hand + Span(admission, n)) % n)
    && (victim < 0 && (admission.Speculative? || CountsTwice(n)) ==> moved == hand)
  }

  lemma SweepHand(slots: seq<Slot>, hand: nat, admission: AdmissionClass)
    requires hand < |slots|
    ensures var o := Sweep(slots, hand, admission);
      HandMoved(hand, o.hand, o.slot, admission, |slots|)
  {
    hide FirstFrom, HandMoved;
    var n, o := |slots|, Sweep(slots, hand, admission);
    if o.slot != NONE {
      MovedPast(hand, o.slot, admission, n);
    } else {
      MovedRound(hand, admission, n);
    }
  }

  lemma MovedPast(hand: nat, victim: nat, admission: AdmissionClass, n: nat)
    requires hand < n && victim < n
    ensures HandMoved(hand, Ahead(victim, 1, n), victim, admission, n)
  {
  }

  lemma MovedRound(hand: nat, admission: AdmissionClass, n: nat)
    requires hand < n
    ensures HandMoved(hand, HandAt(hand, Span(admission, n), n), NONE, admission, n)
  {
    RoundAndBack(hand, Span(admission, n), n);
  }

  lemma RoundAndBack(hand: nat, steps: nat, n: nat)
    requires hand < n && steps <= 2 * n
    ensures HandAt(hand, steps, n) == (hand + steps) % n
  {
    var turns := if hand + steps < n then 0 else if hand + steps < 2 * n then 1 else 2;
    assert HandAt(hand, steps, n) == hand + steps - turns * n;
    RemainderOf(hand + steps, n, turns);
  }

  lemma RemainderOf(x: nat, n: nat, turns: nat)
    requires 0 < n && turns * n <= x < turns * n + n
    ensures x % n == x - turns * n
  {
    DivBounds(x, n, turns);
    DivBounds(x, n, turns + 1);
    assert x == n * (x / n) + x % n;
    assert x / n == turns by { assert x < (turns + 1) * n; }
  }

  /** If a declared sweep finds nothing, no slot could have been reclaimed. */
  predicate MissesNothing(slots: seq<Slot>, hand: nat)
    requires hand < |slots|
  {
    Sweep(slots, hand, Declared).slot == NONE ==> forall i :: 0 <= i < |slots| ==>
        !Takeable(slots[i]) && !Evictable(slots[i])
  }

  /** A declared sweep clears exactly the bits of unpinned, ready, referenced slots it passes over: those up
      to a victim of the first revolution; all, when the victim is of the second; and, when it finds none,
      as many as it has steps for. */
  lemma SweepClears(slots: seq<Slot>, hand: nat, i: nat)
    requires hand < |slots| && i < |slots|
    ensures var o := Sweep(slots, hand, Declared);
      var r := ClearBits(slots, hand, o.cleared);
      r[i] != slots[i] <==>
        Evictable(slots[i]) && slots[i].referenced &&
        (if o.slot == NONE then Steps(hand, i, |slots|) < Span(Declared, |slots|)
         else Takeable(slots[o.slot]) ==> Steps(hand, i, |slots|) < Steps(hand, o.slot, |slots|))
  {
    SweepChoice(slots, hand, Declared);
  }

  // ----- the sweep step by step -----

  /** Position of the hand, and of the candidate, after `step` steps of up to two revolutions. */
  function HandAt(hand: nat, step: nat, n: nat): nat
    requires hand < n && step <= 2 * n
  {
    Ahead(hand, if step <= n then step else step - n, n)
  }

  /** `step` steps have passed without a victim: the first revolution met no takeable slot and the second
      no evictable one. */
  predicate Passed(slots: seq<Slot>, hand: nat, step: nat)
    requires hand < |slots| && step <= 2 * |slots|
  {
    && (forall j :: 0 <= j < |slots| && j < step ==> !Takeable(slots[Ahead(hand, j, |slots|)]))
    && (forall j :: 0 <= j < step - |slots| ==> !Evictable(slots[Ahead(hand, j, |slots|)]))
  }

  function ClearedAt(admission: AdmissionClass, step: nat, n: nat): (k: nat)
    ensures k <= n
  {
    if admission.Speculative? then 0 else if step <= n then step else n
  }

  /** A sweep stops at the first takeable slot of the first revolution, else (declared) at the first
      evictable slot of the second, else with nothing. */
  lemma SweepStops(slots: seq<Slot>, hand: nat, admission: AdmissionClass, step: nat)
    requires hand < |slots| && step <= Span(admission, |slots|) && Passed(slots, hand, step)
    ensures var n := |slots|;
      && (step < Span(admission, n)
           && (if step < n then Takeable(slots[HandAt(hand, step, n)]) else Evictable(slots[HandAt(hand, step, n)])) ==>
            Sweep(slots, hand, admission) ==
            Outcome(HandAt(hand, step, n), HandAt(hand, step + 1, n), ClearedAt(admission, step, n)))
      && (step == Span(admission, n) ==>
            Sweep(slots, hand, admission) == Outcome(NONE, HandAt(hand, step, n), ClearedAt(admission, step, n)))
  {
    hide Sweep, ClearedAt, FirstFrom, Passed;
    if step < |slots| {
      StopsInFirst(slots, hand, admission, step);
    } else {
      StopsInSecond(slots, hand, admission, step);
    }
  }

  lemma StopsInFirst(slots: seq<Slot>, hand: nat, admission: AdmissionClass, step: nat)
    requires hand < |slots| && step <= Span(admission, |slots|) && Passed(slots, hand, step) && step < |slots|
    ensures var n := |slots|;
      && (step < Span(admission, n) && Takeable(slots[HandAt(hand, step, n)]) ==>
            Sweep(slots, hand, admission) ==
            Outcome(HandAt(hand, step, n), HandAt(hand, step + 1, n), ClearedAt(admission, step, n)))
      && (step == Span(admission, n) ==>
            Sweep(slots, hand, admission) == Outcome(NONE, HandAt(hand, step, n), ClearedAt(admission, step, n)))
  {
    hide FirstFrom, ClearedAt;
    assert HandAt(hand, step, |slots|) == Ahead(hand, step, |slots|);
    assert FirstFrom(slots, hand, Takeable, 0) >= step;
  }

  lemma StopsInSecond(slots: seq<Slot>, hand: nat, admission: AdmissionClass, step: nat)
    requires hand < |slots| && |slots| <= step <= Span(admission, |slots|) && Passed(slots, hand, step)
    ensures var n := |slots|;
      && (step < Span(admission, n) && Evictable(slots[HandAt(hand, step, n)]) ==>
            Sweep(slots, hand, admission) ==
            Outcome(HandAt(hand, step, n), HandAt(hand, step + 1, n), ClearedAt(admission, step, n)))
      && (step == Span(admission, n) ==>
            Sweep(slots, hand, admission) == Outcome(NONE, HandAt(hand, step, n), ClearedAt(admission, step, n)))
  {
    hide FirstFrom;
    var n := |slots|;
    assert FirstFrom(slots, hand, Takeable, 0) == n;
    assert HandAt(hand, step, n) == Ahead(hand, step - n, n);
    assert FirstFrom(slots, hand, Evictable, 0) >= step - n;
  }

  /** Passing one more slot: at most its bit is cleared. */
  lemma ClearOneMore(slots: seq<Slot>, hand: nat, k: nat)
    requires hand < |slots| && k < |slots|
    ensures var i := Ahead(hand, k, |slots|);
      && ClearBits(slots, hand, k)[i] == slots[i]
      && ClearBits(slots, hand, k + 1) ==
           if Evictable(slots[i]) then ClearBits(slots, hand, k)[i := slots[i].(referenced := false)]
               else ClearBits(slots, hand, k)
  {
  }

  lemma SweepStart(slots: seq<Slot>, hand: nat, admission: AdmissionClass)
    requires hand < |slots|
    ensures Passed(slots, hand, 0) && HandAt(hand, 0, |slots|) == hand
    ensures ClearBits(slots, hand, ClearedAt(admission, 0, |slots|)) == slots
  {
  }

  /** The hand moves to the next slot. */
  lemma HandMoves(hand: nat, step: nat, n: nat)
    requires hand < n && step < 2 * n
    ensures var slot := HandAt(hand, step, n);
      HandAt(hand, step + 1, n) == if slot + 1 == n then 0 else slot + 1
  {
  }

  /** The bit that one more step clears, if any. */
  lemma ClearStep(slots: seq<Slot>, hand: nat, admission: AdmissionClass, step: nat)
    requires hand < |slots| && step < 2 * |slots|
    ensures var n := |slots|;
      var slot := HandAt(hand, step, n);
      var swept := ClearBits(slots, hand, ClearedAt(admission, step, n));
      && swept[slot] == (if admission.Declared? && n <= step && Evictable(slots[slot])
           then slots[slot].(referenced := false) else slots[slot])
      && ClearBits(slots, hand, ClearedAt(admission, step + 1, n)) ==
           if admission.Declared? && step < n && Evictable(slots[slot])
               then swept[slot := slots[slot].(referenced := false)] else swept
  {
    hide ClearBits;
    var n := |slots|;
    if step < n {
      ClearOneMore(slots, hand, step);
    }
  }

  /** What the slot under the hand means for the sweep: it is the victim, or it is passed over. */
  lemma SweepStep(slots: seq<Slot>, hand: nat, admission: AdmissionClass, step: nat)
    requires hand < |slots| && step < Span(admission, |slots|) && Passed(slots, hand, step)
    ensures var n := |slots|;
      var slot := HandAt(hand, step, n);
      if Takeable(slots[slot]) || (n <= step && Evictable(slots[slot])) then
        Sweep(slots, hand, admission) == Outcome(slot, HandAt(hand, step + 1, n), ClearedAt(admission, step, n))
      else Passed(slots, hand, step + 1)
    ensures admission.Speculative? ==> step < |slots|
  {
    SweepStops(slots, hand, admission, step);
    if |slots| <= step {
      assert !Takeable(slots[Ahead(hand, step - |slots|, |slots|)]);
    }
  }
}
