/** Facts about products, quotients and remainders that the solver does not find by itself.  The walks of
    the block ciphers round a length down to whole blocks, the counter of CTR wraps at its size, and the
    length field of CCM holds a number below a power of 256; each needs one or two of these facts, and the
    proofs there then hide multiplication, division and remainder. */
module Arithmetic {
  lemma MulAtLeast(m: int, x: int)
    requires m > 0
    ensures x >= 1 ==> m * x >= m
    ensures x <= -1 ==> m * x <= -m
  {
  }

  lemma DivModUnique(n: int, m: int, q: int, r: int)
    requires n == m * q + r && 0 <= r < m
    ensures n / m == q && n % m == r
  {
    var p, s := n / m, n % m;
    assert n == m * p + s;
    MulAtLeast(m, p - q);
    assert m * (p - q) == m * p - m * q;
  }

  lemma ModStep(n: int, m: int)
    requires m > 0
    ensures (n - m) % m == n % m
  {
    var q, r := n / m, n % m;
    assert n == m * q + r;
    assert m * (q - 1) == m * q - m;
    DivModUnique(n - m, m, q - 1, r);
  }

  lemma DivMonotone(a: nat, b: nat, m: nat)
    requires a <= b && m > 0
    ensures a / m <= b / m
  {
    var p, q := a / m, b / m;
    assert a == m * p + a % m && b == m * q + b % m;
    MulAtLeast(m, p - q);
    assert m * (p - q) == m * p - m * q;
  }

  /** Counting up modulo `m`. */
  lemma NextMod(x: nat, m: nat)
    requires x < m
    ensures (x + 1) % m == if x + 1 == m then 0 else x + 1
  {
    if x + 1 == m {
      DivModUnique(m, m, 1, 0);
    } else {
      DivModUnique(x + 1, m, 0, x + 1);
    }
  }

  lemma SmallMod(x: nat, y: nat)
    requires x < y
    ensures x % y == x
  {
  }
}
