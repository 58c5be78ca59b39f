/** Division by a positive number, with the quotient named. */
module Division {

  lemma DivMod(a: int, m: int)
    requires m > 0
    ensures a == (a / m) * m + a % m && 0 <= a % m < m
  {
  }

  lemma MultipleGrows(d: int, m: int)
    ensures m >= 0 && d > 0 ==> d * m >= m
    ensures m >= 0 && d < 0 ==> d * m <= -m
  {
  }

  lemma SmallMultiple(d: int, m: int)
    requires -m < d * m < m
    ensures d == 0
  {
  }

  lemma DivUnique(x: int, m: int, q: int)
    requires q * m <= x < q * m + m
    ensures x / m == q && x % m == x - q * m
  {
    DivMod(x, m);
    var d := x / m - q;
    assert d * m == (x / m) * m - q * m;
    SmallMultiple(d, m);
  }
}
