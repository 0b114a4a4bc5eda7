/** Small vocabulary shared by the models: optional values, powers of two, sums over
    sequences, and the few facts of non-linear arithmetic the proofs lean on. */
module Base {

  type Byte = b: int | 0 <= b < 256

  datatype Option<+T> = None | Some(value: T)

  function Pow2(e: nat): (p: nat)
    ensures p >= 1
    ensures e >= 1 ==> p % 2 == 0
  {
    if e == 0 then 1 else 2 * Pow2(e - 1)
  }

  /** C division of non-negative numbers. */
  function Quot(m: nat, d: nat): nat {
    if d == 0 then 0 else m / d
  }

  lemma {:induction false} Pow2Monotone(a: nat, b: nat)
    requires a < b
    ensures 2 * Pow2(a) <= Pow2(b)
  {
    if a + 1 < b {
      Pow2Monotone(a, b - 1);
    }
  }

  /** A number that a power of two divides is divided by every smaller power of two. */
  lemma {:induction false} Pow2Divides(m: nat, a: nat, b: nat)
    requires a <= b && m % Pow2(b) == 0
    ensures m % Pow2(a) == 0
  {
    if a < b {
      HalveDivisor(m, Pow2(b - 1));
      Pow2Divides(m, a, b - 1);
    }
  }

  lemma HalveDivisor(m: nat, d: nat)
    requires d > 0 && m % (2 * d) == 0
    ensures m % d == 0 && m / d == 2 * (m / (2 * d))
  {
    var q := m / (2 * d);
    assert m == (2 * d) * q;
    assert m == d * (2 * q);
    QuotientUnique(m, d, 2 * q);
  }

  lemma QuotientUnique(m: nat, d: nat, q: nat)
    requires d > 0 && m == d * q
    ensures m / d == q && m % d == 0
  {
    var r := m % d;
    var k := m / d;
    assert m == d * k + r;
    assert d * (q - k) == r;
    if q - k >= 1 {
      MulMonotone(1, q - k, d);
      assert false;
    }
    assert d * (k - q) == -r;
    if q - k <= -1 {
      MulMonotone(1, k - q, d);
      assert false;
    }
  }

  lemma MulMonotone(a: int, b: int, n: int)
    requires a <= b && n >= 0
    ensures a * n <= b * n
    ensures n * a <= n * b
  {
  }

  /** The sum of a weight over a sequence. */
  function Sum<T>(s: seq<T>, f: T -> int): int
  {
    if s == [] then 0 else Sum(s[..|s| - 1], f) + f(s[|s| - 1])
  }

  lemma {:induction false} SumUpdate<T>(s: seq<T>, i: nat, v: T, f: T -> int)
    requires i < |s|
    ensures Sum(s[i := v], f) == Sum(s, f) - f(s[i]) + f(v)
  {
    var last := |s| - 1;
    if i < last {
      assert s[i := v][..last] == s[..last][i := v];
      SumUpdate(s[..last], i, v, f);
    } else {
      assert s[i := v][..last] == s[..last];
    }
  }

  lemma {:induction false} SumSame<T>(s: seq<T>, f: T -> int, g: T -> int)
    requires forall i | 0 <= i < |s| :: f(s[i]) == g(s[i])
    ensures Sum(s, f) == Sum(s, g)
  {
    if s != [] {
      SumSame(s[..|s| - 1], f, g);
    }
  }

  lemma SumAppend<T>(s: seq<T>, v: T, f: T -> int)
    ensures Sum(s + [v], f) == Sum(s, f) + f(v)
  {
    assert (s + [v])[..|s|] == s;
  }

  lemma {:induction false} SumBounds<T>(s: seq<T>, f: T -> int, lo: int, hi: int)
    requires forall i | 0 <= i < |s| :: lo <= f(s[i]) <= hi
    ensures lo * |s| <= Sum(s, f) <= hi * |s|
  {
    if s != [] {
      SumBounds(s[..|s| - 1], f, lo, hi);
      assert lo * |s| == lo * (|s| - 1) + lo && hi * |s| == hi * (|s| - 1) + hi;
    }
  }

  /** A sum of non-negative weights is at least each of its terms. */
  lemma {:induction false} SumAtLeast<T>(s: seq<T>, i: nat, f: T -> int)
    requires i < |s|
    requires forall j | 0 <= j < |s| :: f(s[j]) >= 0
    ensures Sum(s, f) >= f(s[i])
  {
    SumBounds(s[..|s| - 1], f, 0, SumCeiling(s, f));
    if i < |s| - 1 {
      SumAtLeast(s[..|s| - 1], i, f);
    }
  }

  lemma {:induction false} SumAtLeastTwo<T>(s: seq<T>, i: nat, j: nat, f: T -> int)
    requires i < j < |s|
    requires forall k | 0 <= k < |s| :: f(s[k]) >= 0
    ensures Sum(s, f) >= f(s[i]) + f(s[j])
  {
    if j < |s| - 1 {
      SumAtLeastTwo(s[..|s| - 1], i, j, f);
    } else {
      SumAtLeast(s[..|s| - 1], i, f);
    }
  }

  lemma SumDropLast<T>(s: seq<T>, f: T -> int)
    requires s != []
    ensures Sum(s, f) == Sum(s[..|s| - 1], f) + f(s[|s| - 1])
  {
  }

  /** Some upper bound of the weights; only its existence matters. */
  ghost function SumCeiling<T>(s: seq<T>, f: T -> int): (c: int)
    ensures forall i | 0 <= i < |s| :: f(s[i]) <= c
  {
    if s == [] then 0 else
      var c := SumCeiling(s[..|s| - 1], f);
      if c < f(s[|s| - 1]) then f(s[|s| - 1]) else c
  }
}
