/** Facts about multiples, quotients and remainders that the solver does not find by itself. */
module Division {

  lemma {:induction false} Multiples(a: nat, b: nat, n: nat)
    requires a < b
    ensures a * n + n <= b * n
    decreases b
  {
    assert b * n == (b - 1) * n + n;
    if a < b - 1 { Multiples(a, b - 1, n); }
  }

  lemma Monotone(a: nat, b: nat, n: nat)
    requires a <= b
    ensures a * n <= b * n
  {
    if a < b { Multiples(a, b, n); }
  }

  lemma Quotient(a: nat, n: nat)
    requires n > 0
    ensures (a / n) * n <= a < (a / n) * n + n
  {
  }

  /** Quotient and remainder are unique. */
  lemma Unique(a: nat, n: nat, q: nat, r: nat)
    requires n > 0 && a == q * n + r && r < n
    ensures a / n == q && a % n == r
  {
    var q' := a / n;
    assert a == q' * n + a % n;
    if q < q' { Multiples(q, q', n); }
    if q' < q { Multiples(q', q, n); }
  }
}
