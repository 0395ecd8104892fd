/** Quotient and remainder are unique. */
module Arith {

  lemma SmallMultiple(m: int, d: int)
    requires m > 0 && -m < m * d < m
    ensures d == 0
  {
    assert m * d == m + m * (d - 1) == -m - m * (-d - 1);
    assert d >= 1 ==> m * (d - 1) >= 0;
    assert d <= -1 ==> m * (-d - 1) >= 0;
  }

  lemma DivModUnique(a: int, m: int, q: int, r: int)
    requires m > 0 && 0 <= r < m && a == m * q + r
    ensures a / m == q && a % m == r
  {
    var d := q - a / m;
    assert m * d == m * q - m * (a / m) == a % m - r;
    SmallMultiple(m, d);
  }
}
