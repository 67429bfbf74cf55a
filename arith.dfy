/** Facts about Euclidean division that the time and date helpers need. */
module Arith {

  function Abs(x: int): nat {
    if x < 0 then -x else x
  }

  lemma MultipleInsideOpenBound(k: int, d: int)
    requires d > 0 && -d < k * d < d
    ensures k == 0
  {
  }

  /** Quotient and remainder are the only pair with `x == q * d + m` and `0 <= m < d`. */
  lemma DivModUnique(x: int, d: int, q: int, m: int)
    requires d > 0 && 0 <= m < d && x == q * d + m
    ensures x / d == q && x % d == m
  {
    var q', m' := x / d, x % d;
    assert (q' - q) * d == m - m';
    MultipleInsideOpenBound(q' - q, d);
  }

  /** Counting one further steps the remainder on, wrapping to 0 after `d - 1`. */
  lemma ModSucc(a: int, d: int)
    requires d > 0
    ensures (a + 1) % d == if a % d == d - 1 then 0 else a % d + 1
  {
    var q, r := a / d, a % d;
    if r == d - 1 {
      DivModUnique(a + 1, d, q + 1, 0);
    } else {
      DivModUnique(a + 1, d, q, r + 1);
    }
  }

  /** Adding whole multiples of `d` moves the quotient and keeps the remainder. */
  lemma DivAddMultiple(a: int, k: int, d: int)
    requires d > 0
    ensures (a + k * d) / d == a / d + k && (a + k * d) % d == a % d
  {
    DivModUnique(a + k * d, d, a / d + k, a % d);
  }

  /** The remainder by `a * b` taken again by `a` is the remainder by `a`. */
  lemma ModOfMod(x: int, a: int, b: int)
    requires a > 0 && b > 0
    ensures x % (a * b) % a == x % a
  {
    var big := x % (a * b);
    var q := x / (a * b);
    assert x == q * (a * b) + big;
    DivModUnique(big, a, big / a, big % a);
    assert x == (q * b + big / a) * a + big % a;
    DivModUnique(x, a, q * b + big / a, big % a);
  }
}
