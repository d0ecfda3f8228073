/** Small shared vocabulary: an optional value and powers of two. */
module Common {

  /** A value that may be absent; used where the source has undefined or failing results. */
  datatype Option<+T> = None | Some(value: T)

  /** 2^n over the mathematical integers. */
  function Pow2(n: nat): (p: nat)
    ensures p >= 1
    decreases n
  {
    if n == 0 then 1 else 2 * Pow2(n - 1)
  }

  /** Powers of two grow with the exponent. */
  lemma {:induction false} Pow2Monotone(m: nat, n: nat)
    requires m <= n
    ensures Pow2(m) <= Pow2(n)
    decreases n
  {
    if m < n {
      Pow2Monotone(m, n - 1);
    }
  }

  /** Exponents add when powers of two multiply. */
  lemma {:induction false} Pow2Add(a: nat, b: nat)
    ensures Pow2(a + b) == Pow2(a) * Pow2(b)
    decreases a
  {
    if a > 0 {
      Pow2Add(a - 1, b);
    }
  }

  /** Bit `i` of the binary representation of `n`. */
  predicate Bit(n: nat, i: nat) {
    (n / Pow2(i)) % 2 == 1
  }

  /** The value of the low `k` bits of `n`, summed bit by bit. */
  function LowBits(n: nat, k: nat): (v: nat)
    decreases k
  {
    if k == 0 then 0 else LowBits(n, k - 1) + (if Bit(n, k - 1) then Pow2(k - 1) else 0)
  }

  /** Summing the low `k` bits of `n` gives `n` modulo 2^k. */
  lemma {:induction false} LowBitsIsMod(n: nat, k: nat)
    ensures LowBits(n, k) == n % Pow2(k)
    decreases k
  {
    if k > 0 {
      LowBitsIsMod(n, k - 1);
      ModDouble(n, Pow2(k - 1));
    }
  }

  /** Splitting a remainder modulo `2p` into the remainder modulo `p` and one more bit. */
  lemma ModDouble(d: nat, p: nat)
    requires p > 0
    ensures d % (2 * p) == d % p + ((d / p) % 2) * p
  {
    var a, b := d / p, d % p;
    assert d == a * p + b;
    assert a == 2 * (a / 2) + a % 2;
    assert d == (a / 2) * (2 * p) + ((a % 2) * p + b) by {
      assert a * p == (2 * (a / 2) + a % 2) * p;
    }
    ModUnique(d, 2 * p, a / 2, (a % 2) * p + b);
  }

  /** Quotient and remainder are the only ones. */
  lemma ModUnique(d: nat, m: nat, q: nat, r: nat)
    requires m > 0 && d == q * m + r && r < m
    ensures d % m == r && d / m == q
  {
    var q2, r2 := d / m, d % m;
    assert d == q2 * m + r2;
    assert q2 * m < (q + 1) * m;
    MulLtCancel(q2, q + 1, m);
    assert q * m < (q2 + 1) * m;
    MulLtCancel(q, q2 + 1, m);
  }

  lemma MulLtCancel(a: nat, b: nat, m: nat)
    requires m > 0 && a * m < b * m
    ensures a < b
  {
    if a >= b {
      MulLe(b, a, m);
    }
  }

  lemma MulLe(a: nat, b: nat, m: nat)
    requires a <= b
    ensures a * m <= b * m
  {
  }
}
