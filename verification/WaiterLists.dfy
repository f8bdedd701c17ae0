/** The intrusive waiter lists of SlotPool (slot_pool.hpp): one list head per slot, one `next` link per
    waiter entry, all lists threaded through the same array. `queues` spells the lists out, and `on` says
    which slot each linked entry belongs to. */
module WaiterLists {
  import opened Transfer

  /** The j-th entry of a list, or the end of the list. */
  function Entry(q: seq<nat>, j: nat): int { if j < |q| then q[j] else NONE }

  predicate Links(next: seq<int>, q: seq<nat>, j: nat)
    requires j < |q|
  {
    q[j] < |next| && next[q[j]] == Entry(q, j + 1)
  }

  /** Following `next` from the head visits the queue and ends. */
  predicate Chained(head: int, next: seq<int>, q: seq<nat>) {
    head == Entry(q, 0) && forall j :: 0 <= j < |q| ==> Links(next, q, j)
  }

  /** The queue of `slot` is exactly the entries linked to it, each once. */
  predicate QueueOf(on: seq<int>, slot: nat, q: seq<nat>) {
    && (forall j :: 0 <= j < |q| ==> q[j] < |on| && on[q[j]] == slot)
    && (forall j, k :: 0 <= j < k < |q| ==> q[j] != q[k])
    && (forall e :: 0 <= e < |on| && on[e] == slot ==> e in q)
  }

  /** The lists are acyclic, pairwise disjoint, and hold exactly the linked entries. */
  predicate Lists(heads: seq<int>, next: seq<int>, on: seq<int>, queues: seq<seq<nat>>) {
    && |heads| == |queues| && |next| == |on|
    && (forall s :: 0 <= s < |queues| ==> Chained(heads[s], next, queues[s]) && QueueOf(on, s, queues[s]))
  }

  /** No entry is in two lists. */
  lemma Disjoint(heads: seq<int>, next: seq<int>, on: seq<int>, queues: seq<seq<nat>>, s: nat, t: nat, e: nat)
    requires Lists(heads, next, on, queues) && s < |queues| && t < |queues| && e in queues[s] && e in queues[t]
    ensures s == t
  {
    assert QueueOf(on, s, queues[s]) && QueueOf(on, t, queues[t]);
  }

  lemma ChainKept(head: int, next: seq<int>, q: seq<nat>, e: nat, link: int)
    requires Chained(head, next, q) && e < |next| && e !in q
    ensures Chained(head, next[e := link], q)
  {
    var next' := next[e := link];
    forall j | 0 <= j < |q| ensures Links(next', q, j) { assert Links(next, q, j); }
  }

  lemma ChainPushed(head: int, next: seq<int>, q: seq<nat>, e: nat)
    requires Chained(head, next, q) && e < |next| && e !in q
    ensures Chained(e, next[e := head], [e] + q)
  {
    var next', q' := next[e := head], [e] + q;
    forall j | 0 <= j < |q'| ensures Links(next', q', j) {
      if j > 0 {
        assert Links(next, q, j - 1);
      }
    }
  }

  lemma ChainPopped(head: int, next: seq<int>, q: seq<nat>)
    requires Chained(head, next, q) && q != [] && q[0] !in q[1..]
    ensures head == q[0] && q[0] < |next| && Chained(next[q[0]], next[q[0] := NONE], q[1..])
  {
    assert Links(next, q, 0);
    var next', q' := next[q[0] := NONE], q[1..];
    forall j | 0 <= j < |q'| ensures Links(next', q', j) {
      assert Links(next, q, j + 1);
      assert q'[j] in q';
    }
  }

  lemma QueuePushed(on: seq<int>, slot: nat, q: seq<nat>, e: nat)
    requires QueueOf(on, slot, q) && e < |on| && on[e] == NONE
    ensures QueueOf(on[e := slot], slot, [e] + q)
  {
    assert forall x :: x in q ==> x in [e] + q;
  }

  lemma QueuePopped(on: seq<int>, slot: nat, q: seq<nat>)
    requires QueueOf(on, slot, q) && q != []
    ensures q[0] < |on| && on[q[0]] == slot && q[0] !in q[1..] && QueueOf(on[q[0] := NONE], slot, q[1..])
  {
    assert q == [q[0]] + q[1..];
  }

  /** Linking an unlinked entry at the head of a slot's list. */
  lemma Pushed(heads: seq<int>, next: seq<int>, on: seq<int>, queues: seq<seq<nat>>, slot: nat, e: nat)
    requires Lists(heads, next, on, queues) && slot < |queues| && e < |on| && on[e] == NONE
    ensures Lists(heads[slot := e], next[e := heads[slot]], on[e := slot], queues[slot := [e] + queues[slot]])
  {
    var heads', next', on', queues' := heads[slot := e], next[e := heads[slot]], on[e := slot],
        queues[slot := [e] + queues[slot]];
    forall s | 0 <= s < |queues'| ensures Chained(heads'[s], next', queues'[s]) && QueueOf(on', s, queues'[s]) {
      assert Chained(heads[s], next, queues[s]) && QueueOf(on, s, queues[s]);
      if s == slot {
        ChainPushed(heads[s], next, queues[s], e);
        QueuePushed(on, s, queues[s], e);
      } else {
        ChainKept(heads[s], next, queues[s], e, heads[slot]);
      }
    }
  }

  /** An entry that no list holds may have its link reset. */
  lemma LinkReset(heads: seq<int>, next: seq<int>, on: seq<int>, queues: seq<seq<nat>>, e: nat)
    requires Lists(heads, next, on, queues) && e < |on| && on[e] == NONE
    ensures Lists(heads, next[e := NONE], on, queues)
  {
    forall s | 0 <= s < |queues| ensures Chained(heads[s], next[e := NONE], queues[s]) {
      assert Chained(heads[s], next, queues[s]) && QueueOf(on, s, queues[s]);
      ChainKept(heads[s], next, queues[s], e, NONE);
    }
  }

  /** Taking the first entry off a slot's list. */
  lemma Popped(heads: seq<int>, next: seq<int>, on: seq<int>, queues: seq<seq<nat>>, slot: nat)
    requires Lists(heads, next, on, queues) && slot < |queues| && queues[slot] != []
    ensures var e := queues[slot][0];
      && e < |on| && heads[slot] == e && on[e] == slot
      && Lists(heads[slot := next[e]], next[e := NONE], on[e := NONE], queues[slot := queues[slot][1..]])
  {
    assert Chained(heads[slot], next, queues[slot]) && QueueOf(on, slot, queues[slot]);
    var e := queues[slot][0];
    QueuePopped(on, slot, queues[slot]);
    ChainPopped(heads[slot], next, queues[slot]);
    var heads', next', on', queues' := heads[slot := next[e]], next[e := NONE], on[e := NONE],
        queues[slot := queues[slot][1..]];
    forall s | 0 <= s < |queues'| ensures Chained(heads'[s], next', queues'[s]) && QueueOf(on', s, queues'[s]) {
      assert Chained(heads[s], next, queues[s]) && QueueOf(on, s, queues[s]);
      if s != slot {
        ChainKept(heads[s], next, queues[s], e, NONE);
      }
    }
  }

  /** Heads and links point at entries or nowhere. */
  lemma ListSizes(heads: seq<int>, next: seq<int>, on: seq<int>, queues: seq<seq<nat>>)
    requires Lists(heads, next, on, queues)
    ensures |heads| == |queues| && |next| == |on|
    ensures forall s :: 0 <= s < |heads| ==> heads[s] == NONE || 0 <= heads[s] < |on|
  {
    forall s | 0 <= s < |heads| ensures heads[s] == NONE || 0 <= heads[s] < |on| {
      assert Chained(heads[s], next, queues[s]) && QueueOf(on, s, queues[s]);
    }
  }

  /** One step of a walk that keeps the rest of the list in a variable, `entry`, instead of its head. */
  lemma WalkOn(heads: seq<int>, next: seq<int>, on: seq<int>, queues: seq<seq<nat>>, slot: nat, entry: int)
    requires slot < |heads| && Lists(heads[slot := entry], next, on, queues) && entry != NONE
    ensures slot < |queues| && queues[slot] != [] && 0 <= entry < |on| == |next| && on[entry] == slot
    ensures Lists(heads[slot := next[entry]], next[entry := NONE], on[entry := NONE], queues[slot := queues[slot][1..]])
  {
    HeadMeaning(heads[slot := entry], next, on, queues, slot);
    Popped(heads[slot := entry], next, on, queues, slot);
    assert heads[slot := entry][slot := next[entry]] == heads[slot := next[entry]];
  }

  /** A slot's list is empty exactly when nothing is linked to it. */
  lemma HeadMeaning(heads: seq<int>, next: seq<int>, on: seq<int>, queues: seq<seq<nat>>, slot: nat)
    requires Lists(heads, next, on, queues) && slot < |queues|
    ensures heads[slot] == NONE <==> queues[slot] == []
    ensures heads[slot] == NONE <==> forall e :: 0 <= e < |on| ==> on[e] != slot
  {
    assert Chained(heads[slot], next, queues[slot]) && QueueOf(on, slot, queues[slot]);
    if queues[slot] != [] {
      assert on[queues[slot][0]] == slot;
    }
  }
}
