/** Products of natural numbers, by induction. */
module Products {
  lemma {:induction false} NonNegative(k: nat, s: nat)
    ensures 0 <= k * s
  {
    if k > 0 {
      NonNegative(k - 1, s);
      assert k * s == (k - 1) * s + s;
    }
  }

  /** Block `a` of length `s` ends before block `b` begins. */
  lemma Apart(a: nat, b: nat, s: nat)
    requires a < b
    ensures 0 <= a * s && a * s + s <= b * s
  {
    var k: nat := b - a - 1;
    NonNegative(k, s);
    NonNegative(a, s);
    assert b * s == a * s + s + k * s;
  }

  lemma NotLess(x: nat, factor: nat)
    requires 0 < factor
    ensures x <= x * factor
  {
    var k: nat := factor - 1;
    NonNegative(k, x);
    assert x * factor == x + k * x;
  }

  /** Division finds the block that a number lies in. */
  lemma DivBounds(x: nat, d: nat, q: nat)
    requires 0 < d
    ensures x / d <= q <==> x < q * d + d
    ensures q <= x / d <==> q * d <= x
  {
    var r := x / d;
    assert x == d * r + x % d;
    if r < q {
      Apart(r, q, d);
    } else if q < r {
      Apart(q, r, d);
    }
  }
}
