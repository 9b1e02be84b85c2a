/** Quotients and remainders, where the divisor is not a constant. */
module Division {
  lemma Multiple(d: int, size: int)
    requires 0 <= size
    ensures 1 <= d ==> size <= d * size
    ensures d <= -1 ==> d * size <= -size
  {
    if 1 <= d {
      assert d * size - size == (d - 1) * size;
    } else if d <= -1 {
      assert d * size + size == (d + 1) * size;
    }
  }

  /** There is one quotient and one remainder. */
  lemma Divided(q: int, size: nat, r: nat)
    requires r < size
    ensures (q * size + r) / size == q && (q * size + r) % size == r
  {
    var d := (q * size + r) / size;
    assert (q * size + r) - d * size == (q - d) * size + r;
    Multiple(q - d, size);
  }

  lemma Regrouped(q: nat, r: nat, s: nat, b: nat, c: nat)
    requires r < c && s < b
    ensures (q * c + r) * b + s == q * (b * c) + (r * b + s)
    ensures r * b + s < b * c
  {
    Multiple(c - r, b);
    assert (c - r) * b == c * b - r * b;
  }
}
