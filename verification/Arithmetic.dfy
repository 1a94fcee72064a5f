/** Facts about products and remainders that the solver does not find by itself. */
module Arithmetic {

  const TWO16: nat := 0x1_0000
  const TWO32: nat := 0x1_0000_0000
  const TWO64: nat := 0x1_0000_0000_0000_0000

  function Pow2(n: nat): (r: nat)
    ensures r > 0
  {
    if n == 0 then 1 else 2 * Pow2(n - 1)
  }

  lemma MulStep(a: int, b: int)
    ensures (a + 1) * b == a * b + b
  {
  }

  lemma Distribute(a: int, b: int, c: int)
    ensures (a + b) * c == a * c + b * c
  {
  }

  lemma MulMono(a: nat, b: nat, c: nat)
    requires a <= b
    ensures a * c <= b * c
  {
  }

  lemma MulBounds(d: int, n: int)
    requires n >= 0
    ensures d >= 1 ==> d * n >= n
    ensures d <= 0 ==> d * n <= 0
    ensures d <= -1 ==> d * n <= -n
  {
  }

  /** Quotient and remainder are determined by any way of writing the number. */
  lemma ModUnique(q: int, r: nat, n: nat)
    requires r < n
    ensures (q * n + r) % n == r
    ensures (q * n + r) / n == q
  {
    var x := q * n + r;
    var d := x / n - q;
    assert x == (x / n) * n + x % n;
    assert (x / n - q) * n == (x / n) * n - q * n;
    assert d * n == r - x % n;
    MulBounds(d, n);
  }
}
