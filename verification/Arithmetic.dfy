/** Products and quotients of natural numbers, one fact at a time. */
module Arithmetic {
  lemma {:induction false} MulMono(a: nat, b: nat, c: nat)
    requires a <= b
    ensures a * c <= b * c
  {
    if c > 0 {
      MulMono(a, b, c - 1);
      assert a * c == a * (c - 1) + a && b * c == b * (c - 1) + b;
    }
  }

  /** Multiples of `d` are at least `d` apart. */
  lemma {:induction false} MulGap(a: nat, b: nat, d: nat)
    requires a < b
    ensures a * d + d <= b * d
  {
    if d > 0 {
      MulGap(a, b, d - 1);
      assert a * d == a * (d - 1) + a && b * d == b * (d - 1) + b;
    }
  }

  lemma {:induction false} Distribute(c: nat, x: nat, y: nat)
    ensures c * (x + y) == c * x + c * y
  {
  }

  lemma {:induction false} OneMore(n: nat, k: nat)
    ensures (n + 1) * k == k + n * k
  {
  }

  lemma {:induction false} Twice(x: nat, y: nat)
    ensures 2 * (x * y) == x * (2 * y)
  {
  }

  lemma {:induction false} AtLeastOne(n: nat, d: nat)
    requires n > 0
    ensures d <= n * d
  {
    OneMore(n - 1, d);
  }

  /** Division undoes multiplication. */
  lemma {:induction false} DivExact(q: nat, d: nat)
    requires d > 0
    ensures q * d / d == q
  {
    var n := q * d;
    var p := n / d;
    assert n == p * d + n % d;
    if p < q {
      MulGap(p, q, d);
    } else if q < p {
      MulGap(q, p, d);
    }
  }

  /** The whole multiples of `d` below `n` go up to `n`, and no further. */
  lemma {:induction false} WholeMultiples(n: nat, d: nat)
    requires d > 0
    ensures n / d * d <= n
  {
  }

  lemma {:induction false} MostMultiples(k: nat, d: nat, n: nat)
    requires d > 0 && k * d <= n
    ensures k <= n / d && k * d <= n / d * d
  {
    var q := n / d;
    assert n == q * d + n % d;
    if q < k { MulGap(q, k, d); }
    MulMono(k, q, d);
  }
}
