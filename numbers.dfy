/** JavaScript number operations that have no exact counterpart on Dafny's `real`. */
module Numbers {
  /** `v | 0` on a value inside the 32-bit range: truncation toward zero. */
  function Trunc(v: real): (r: int)
    ensures v >= 0.0 ==> 0 <= r && r as real <= v < r as real + 1.0
    ensures v < 0.0 ==> r <= 0 && r as real - 1.0 < v <= r as real
  {
    if v >= 0.0 then v.Floor else -((-v).Floor)
  }

  function Abs(v: real): (r: real)
    ensures r >= 0.0 && (r == v || r == -v)
  {
    if v < 0.0 then -v else v
  }

  function Min(a: real, b: real): (r: real)
    ensures r <= a && r <= b && (r == a || r == b)
  {
    if a <= b then a else b
  }

  function Max(a: real, b: real): (r: real)
    ensures r >= a && r >= b && (r == a || r == b)
  {
    if a >= b then a else b
  }

  /** Truncation of a non-negative quotient is the integer quotient of whole numbers. */
  lemma TruncOfQuotient(n: nat, d: nat)
    requires d > 0
    ensures Trunc(n as real / d as real) == n / d
  {
    var q := n / d;
    assert n == q * d + n % d;
    assert (n as real) / (d as real) == (q as real) + (n % d) as real / d as real;
    assert 0.0 <= (n % d) as real / d as real < 1.0;
  }

  /**
   * `(a / b) | 0` on whole numbers: the quotient truncated toward zero. A zero
   * divisor gives `Infinity` or `NaN`, which `| 0` turns into 0.
   */
  function IntDiv(a: int, b: int): int
  {
    if b == 0 then 0 else Trunc(a as real / b as real)
  }

  /** `(a % b) | 0` on whole numbers: the remainder takes the dividend's sign; a zero divisor gives 0. */
  function IntRem(a: int, b: int): int
  {
    if b == 0 then 0 else a - b * IntDiv(a, b)
  }

  /** On a non-negative dividend and a positive divisor both agree with Dafny's `/` and `%`. */
  lemma IntDivOfNatural(a: nat, b: nat)
    requires b > 0
    ensures IntDiv(a, b) == a / b && IntRem(a, b) == a % b
    ensures 0 <= IntRem(a, b) < b && a == IntDiv(a, b) * b + IntRem(a, b)
  {
    TruncOfQuotient(a, b);
  }

  /** `(a % n + 1) % n` is `(a + 1) % n`. */
  lemma ModSucc(a: nat, n: nat)
    requires n > 0
    ensures (a % n + 1) % n == (a + 1) % n
  {
    var q, r := a / n, a % n;
    if r + 1 < n {
      DivUnique(a + 1, n, q, r + 1);
      DivUnique(r + 1, n, 0, r + 1);
    } else {
      DivUnique(a + 1, n, q + 1, 0);
      DivUnique(r + 1, n, 1, 0);
    }
  }

  /** `(a % n + b) % n` is `(a + b) % n`. */
  lemma ModShift(a: nat, b: nat, n: nat)
    requires n > 0
    ensures (a % n + b) % n == (a + b) % n
  {
    var q, r := a / n, a % n;
    var q2, r2 := (r + b) / n, (r + b) % n;
    assert a + b == (q + q2) * n + r2 by {
      assert (q + q2) * n == q * n + q2 * n;
    }
    DivUnique(a + b, n, q + q2, r2);
  }

  lemma DivUnique(a: int, n: int, q: int, r: int)
    requires n > 0 && 0 <= r < n && a == q * n + r
    ensures a % n == r && a / n == q
  {
    var q', r' := a / n, a % n;
    assert a == q' * n + r';
    if q' > q {
      MulAtLeast(q' - q, n);
    } else if q' < q {
      MulAtLeast(q - q', n);
    }
  }

  lemma {:induction false} MulAtLeast(d: int, n: int)
    requires d >= 1 && n > 0
    ensures d * n >= n
    decreases d
  {
    if d > 1 {
      MulAtLeast(d - 1, n);
      assert d * n == (d - 1) * n + n;
    }
  }

  /** `(a + n) % n` is `a % n`. */
  lemma ModPlus(a: nat, n: nat)
    requires n > 0
    ensures (a + n) % n == a % n
  {
    DivUnique(a + n, n, a / n + 1, a % n);
  }
}
