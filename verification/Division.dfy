/** Facts about integer division and products of variables. */
module Division {

  function Times(i: int, j: int): (p: int)
    ensures i > 0 && j > 0 ==> p > 0
  {
    i * j
  }

  function Divide(a: int, b: int): int
    requires b > 0
  {
    a / b
  }

  lemma Monotone(a: int, b: int, n: int)
    requires n > 0
    ensures a <= b ==> a * n <= b * n
  {
    if a <= b {
      assert (b - a) * n >= 0;
    }
  }

  lemma QuotientIs(a: int, n: int, q: int, r: int)
    requires n > 0 && a == q * n + r && 0 <= r < n
    ensures a / n == q
  {
    QuotientBetween(a, n, q);
  }

  lemma QuotientAtLeast(a: int, n: int, q: int)
    requires n > 0 && q * n <= a
    ensures q <= a / n
  {
    Monotone(a / n + 1, q, n);
  }

  lemma Shrinks(a: nat, m: int, n: int)
    requires 0 < n <= m
    ensures Divide(a, m) <= Divide(a, n)
  {
    var q := a / m;
    Monotone(n, m, if q > 0 then q else 1);
    QuotientAtLeast(a, n, q);
  }

  lemma DivideTwice(a: nat, b: nat, c: nat)
    requires b > 0 && c > 0
    ensures Divide(a, Times(b, c)) == a / b / c
  {
    var q := a / b;
    var p := q / c;
    Quotient(a, b);
    Quotient(q, c);
    Monotone(c * p, q, b);
    Monotone(q + 1, c * (p + 1), b);
    Associative(p, c, b);
    Associative(p + 1, c, b);
    QuotientBetween(a, Times(b, c), p);
  }

  lemma Quotient(a: nat, n: nat)
    requires n > 0
    ensures n * (a / n) <= a < n * (a / n + 1)
  {
  }

  lemma Associative(p: int, c: int, b: int)
    ensures c * p * b == p * Times(b, c)
  {
  }

  lemma QuotientBetween(a: int, n: int, q: int)
    requires n > 0 && q * n <= a < (q + 1) * n
    ensures a / n == q
  {
    Monotone(a / n + 1, q, n);
    Monotone(q + 1, a / n, n);
  }
}
