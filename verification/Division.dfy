/** Facts about Euclidean division that the solver does not find by itself. */
module Division {

  lemma OneMore(a: nat, b: nat, n: nat)
    requires a < b
    ensures a * n + n <= b * n
  {
    var d := b - a - 1;
    assert b * n == (a + 1 + d) * n == a * n + n + d * n;
  }

  lemma Monotone(a: nat, b: nat, n: nat)
    requires a <= b
    ensures a * n <= b * n
  {
    if a < b {
      OneMore(a, b, n);
    }
  }

  lemma Unique(n: nat, q: nat, r: nat, q': nat, r': nat)
    requires r < n && r' < n && q * n + r == q' * n + r'
    ensures q == q' && r == r'
  {
    if q < q' {
      OneMore(q, q', n);
    } else if q' < q {
      OneMore(q', q, n);
    }
  }

  lemma Split(x: nat, n: nat)
    requires 0 < n
    ensures x == (x / n) * n + x % n && x % n < n
  {
  }

  lemma QuotientAndRemainder(x: nat, n: nat, q: nat, r: nat)
    requires r < n && x == q * n + r
    ensures x / n == q && x % n == r
  {
    Split(x, n);
    Unique(n, q, r, x / n, x % n);
  }

  lemma AddMultiple(x: nat, c: nat, n: nat)
    requires 0 < n
    ensures (c * n + x) % n == x % n
    ensures (c * n + x) / n == c + x / n
  {
    Split(x, n);
    assert (c + x / n) * n == c * n + (x / n) * n;
    QuotientAndRemainder(c * n + x, n, c + x / n, x % n);
  }

  /** Two numbers less than `n` apart have the same remainder only if they are equal. */
  lemma SameRemainder(x: nat, y: nat, n: nat)
    requires 0 < n && x <= y < x + n && x % n == y % n
    ensures x == y
  {
    Split(x, n);
    Split(y, n);
    if x / n < y / n {
      OneMore(x / n, y / n, n);
    } else if y / n < x / n {
      OneMore(y / n, x / n, n);
    }
  }
}
