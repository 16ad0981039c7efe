/** Maximum, minimum, and division by a positive length: what piece arithmetic needs. */
module Arithmetic {

  function Max(a: int, b: int): int { if a < b then b else a }

  function Min(a: int, b: int): int { if a < b then a else b }

  lemma DivBelow(x: int, l: int, n: int)
    requires l > 0
    ensures x / l < n <==> x < n * l
  {
    assert x == (x / l) * l + x % l;
    if x / l < n {
      assert (x / l + 1) * l <= n * l;
    } else {
      assert (x / l) * l >= n * l;
    }
  }

  lemma DivMonotone(x: int, y: int, l: int)
    requires l > 0 && x <= y
    ensures x / l <= y / l
  {
    DivBelow(y, l, y / l + 1);
    DivBelow(x, l, y / l + 1);
  }

  lemma DivShift(x: int, l: int)
    requires l > 0
    ensures (x + l) / l == x / l + 1
  {
    DivBelow(x, l, x / l);
    DivBelow(x, l, x / l + 1);
    DivBelow(x + l, l, x / l + 1);
    DivBelow(x + l, l, x / l + 2);
  }
}
