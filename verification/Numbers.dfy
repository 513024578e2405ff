/** Whole-number division and scaling, as the bounds of the other modules need them. */
module Numbers {

  function Ceil(m: int, n: int): int
    requires n > 0
  {
    (m + n - 1) / n
  }

  lemma Scale(a: int, b: int, n: int)
    requires a <= b && n >= 0
    ensures a * n <= b * n
  {
    assert b * n - a * n == (b - a) * n;
  }

  lemma CeilBounds(m: nat, n: int)
    requires n > 0
    ensures Ceil(m, n) >= 0 && (Ceil(m, n) - 1) * n < m <= Ceil(m, n) * n
  {
    var q, r := Ceil(m, n), (m + n - 1) % n;
    assert m + n - 1 == n * q + r;
    assert n * q == q * n && (q - 1) * n == q * n - n;
  }

  lemma FloorBounds(m: nat, n: int)
    requires n > 0
    ensures m / n >= 0 && (m / n) * n <= m < (m / n + 1) * n
  {
    var q, r := m / n, m % n;
    assert m == n * q + r;
    assert n * q == q * n && (q + 1) * n == q * n + n;
  }
}
