/** The message checksum of the queue programs: a loop in unsigned 64-bit arithmetic whose
    value is cut to 16 bits. It looks at the size of the message only. */
module Checksum {
  import opened Base

  const WORD := 0x1_0000_0000_0000_0000
  const HALF := 0x1_0000
  const SEED := 5381

  /** ((hash << 5) + hash) + i in unsigned long. */
  function Step(h: nat, i: nat): nat {
    ((h * 32) % WORD + h + i) % WORD
  }

  /** The accumulator after n turns of the loop. */
  function Accumulated(n: nat): nat {
    if n == 0 then SEED else Step(Accumulated(n - 1), n - 1)
  }

  /** hash(): size + 4 turns, then the conversion to uint16_t. */
  method Hash(size: nat) returns (h: nat)
    ensures h == Accumulated(size + 4) % HALF
  {
    var acc := SEED;
    for i := 0 to size + 4
      invariant acc == Accumulated(i)
    {
      acc := Step(acc, i);
    }
    return acc % HALF;
  }

  function Power(n: nat): nat {
    if n == 0 then 1 else 33 * Power(n - 1)
  }

  /** The sum of j * 33^(n-1-j) over j < k. */
  function Terms(n: nat, k: nat): nat
    requires k <= n
  {
    if k == 0 then 0 else Terms(n, k - 1) + (k - 1) * Power(n - k)
  }

  /** The checksum as a number, before any truncation. */
  function Polynomial(n: nat): nat {
    SEED * Power(n) + Terms(n, n)
  }

  lemma {:induction false} TermsGrow(n: nat, k: nat)
    requires k <= n
    ensures Terms(n + 1, k) == 33 * Terms(n, k)
  {
    if k > 0 {
      TermsGrow(n, k - 1);
      assert Power(n + 1 - k) == 33 * Power(n - k);
      assert (k - 1) * (33 * Power(n - k)) == 33 * ((k - 1) * Power(n - k));
    }
  }

  lemma PolynomialStep(n: nat)
    ensures Polynomial(n + 1) == 33 * Polynomial(n) + n
  {
    TermsGrow(n, n);
    assert Terms(n + 1, n + 1) == Terms(n + 1, n) + n * Power(0);
    assert SEED * (33 * Power(n)) == 33 * (SEED * Power(n));
  }

  lemma ModOfSum(a: nat, b: nat, i: nat, w: nat)
    requires w > 0 && b == a % w
    ensures ((b * 32) % w + b + i) % w == (33 * a + i) % w
  {
    var q := a / w;
    assert a == w * q + b;
    var r := (b * 32) / w;
    assert b * 32 == w * r + (b * 32) % w;
    assert 33 * a + i == w * (33 * q + r) + ((b * 32) % w + b + i);
    SameResidue(33 * a + i, (b * 32) % w + b + i, w, 33 * q + r);
  }

  lemma SameResidue(x: nat, y: nat, w: nat, k: nat)
    requires w > 0 && x == w * k + y
    ensures x % w == y % w
  {
    var q := y / w;
    assert y == w * q + y % w;
    assert x == w * (k + q) + y % w;
    ResidueUnique(x, w, k + q, y % w);
  }

  lemma ResidueUnique(x: nat, w: nat, q: nat, r: nat)
    requires w > 0 && x == w * q + r && r < w
    ensures x % w == r
  {
    var d := x / w - q;
    assert w * d == r - x % w;
    if d >= 1 {
      MulMonotone(1, d, w);
    }
    if d <= -1 {
      MulMonotone(d, -1, w);
    }
  }

  lemma StepResidue(a: nat, i: nat)
    ensures Step(a % WORD, i) == (33 * a + i) % WORD
  {
    ModOfSum(a, a % WORD, i, WORD);
  }

  /** No overflow of the accumulator is lost: it is the polynomial modulo 2^64. */
  lemma {:induction false} AccumulatedIsPolynomial(n: nat)
    ensures Accumulated(n) == Polynomial(n) % WORD
  {
    if n == 0 {
      assert Polynomial(0) == SEED;
    } else {
      AccumulatedIsPolynomial(n - 1);
      PolynomialStep(n - 1);
      hide Polynomial, Step;
      StepResidue(Polynomial(n - 1), n - 1);
    }
  }

  /** The checksum of a message of the given size is 5381 * 33^n plus the sum of
      j * 33^(n-1-j), modulo 2^16, with n = size + 4. */
  lemma ChecksumIsPolynomial(size: nat)
    ensures Accumulated(size + 4) % HALF == Polynomial(size + 4) % HALF
  {
    AccumulatedIsPolynomial(size + 4);
    var p := Polynomial(size + 4);
    var q := p / WORD;
    assert p == WORD * q + p % WORD;
    assert WORD == HALF * 0x1_0000_0000_0000;
    assert p == HALF * (0x1_0000_0000_0000 * q) + p % WORD;
    SameResidue(p, p % WORD, HALF, 0x1_0000_0000_0000 * q);
  }

  /** The sum has a closed form. */
  lemma {:induction false} TermsClosed(n: nat)
    ensures 1024 * Terms(n, n) + 32 * n + 1 == Power(n)
  {
    if n > 0 {
      TermsClosed(n - 1);
      TermsGrow(n - 1, n - 1);
      assert Terms(n, n) == Terms(n, n - 1) + (n - 1) * Power(0);
    }
  }
}
