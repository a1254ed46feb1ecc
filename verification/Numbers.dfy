/** Integer widths, rounding division and the result type shared by every module. */
module Numbers {

  const U64_MAX: nat := 0xFFFF_FFFF_FFFF_FFFF
  const U128_MAX: nat := 0xFFFF_FFFF_FFFF_FFFF_FFFF_FFFF_FFFF_FFFF
  const I64_MAX: nat := 0x7FFF_FFFF_FFFF_FFFF

  type U64 = n: nat | n <= U64_MAX

  datatype Option<+T> = None | Some(value: T)

  datatype Result<+T, +E> = Ok(value: T) | Err(error: E) {
    predicate IsFailure() { Err? }

    function PropagateFailure<U>(): Result<U, E>
      requires Err?
    {
      Err(error)
    }

    function Extract(): T
      requires Ok?
    {
      value
    }
  }

  function Min(a: nat, b: nat): nat { if a <= b then a else b }

  /** A 64-bit truncating cast. */
  function Wrap64(n: nat): U64 {
    ModBound(n, U64_MAX + 1);
    n % (U64_MAX + 1)
  }

  lemma ModBound(n: nat, d: nat)
    requires d > 0
    ensures 0 <= n % d < d
    ensures n < d ==> n % d == n
  {}

  /** The smallest integer not below `n / d`, as `div_ceil` computes it. */
  function CeilDiv(n: nat, d: nat): nat
    requires d > 0
  {
    if n % d == 0 then n / d else n / d + 1
  }

  /** Integer division, as the source's unsigned `/`. */
  function FloorDiv(n: nat, d: nat): nat
    requires d > 0
  {
    DivSplit(n, d);
    n / d
  }

  lemma DivSplit(n: nat, d: nat)
    requires d > 0
    ensures n == (n / d) * d + n % d
    ensures 0 <= n % d < d
    ensures n / d >= 0
  {}

  /** Floor division brackets the quotient. */
  lemma FloorBracket(n: nat, d: nat)
    requires d > 0
    ensures (n / d) * d <= n < (n / d) * d + d
  {
    DivSplit(n, d);
  }

  /** Ceiling division brackets the quotient from the other side. */
  lemma CeilBracket(n: nat, d: nat)
    requires d > 0
    ensures n <= CeilDiv(n, d) * d < n + d
  {
    DivSplit(n, d);
    if n % d != 0 {
      assert (n / d + 1) * d == (n / d) * d + d;
    }
  }

  /** `a * d <= b * d` orders `a` and `b`. */
  lemma MulCancel(a: int, b: int, d: nat)
    requires d > 0
    ensures a * d <= b * d <==> a <= b
    ensures a * d < b * d <==> a < b
  {
    if a < b {
      MulStep(a, b, d);
    } else if b < a {
      MulStep(b, a, d);
    }
  }

  lemma MulStep(a: int, b: int, d: nat)
    requires d > 0 && a < b
    ensures a * d + d <= b * d
  {
    assert b * d - a * d == (b - a) * d;
    assert (b - a) * d == (b - a - 1) * d + d;
    assert (b - a - 1) * d >= 0;
  }

  /** Distributing a multiplication, one term at a time. */
  lemma MulAdd(a: int, b: int, d: int)
    ensures (a + b) * d == a * d + b * d
    ensures (a - b) * d == a * d - b * d
  {}

  lemma MulNonNegative(a: nat, b: nat)
    ensures a * b >= 0
    ensures a > 0 ==> a * b >= b
    ensures a > 0 && b > 0 ==> a * b > 0
  {
    if a > 0 {
      MulStep2(a, b);
    }
  }

  lemma MulStep2(a: nat, b: nat)
    requires a > 0
    ensures a * b == (a - 1) * b + b
    ensures (a - 1) * b >= 0
  {}

  lemma FloorAtLeast(n: nat, d: nat, q: nat)
    requires d > 0
    ensures n / d >= q <==> n >= q * d
  {
    FloorBracket(n, d);
    if n / d >= q {
      MulCancel(q, n / d, d);
    } else {
      MulStep(n / d, q, d);
    }
  }

  lemma FloorAtMost(n: nat, d: nat, q: nat)
    requires d > 0
    ensures n / d <= q <==> n < q * d + d
  {
    FloorAtLeast(n, d, q + 1);
    MulAdd(q, 1, d);
  }

  lemma CeilAtMost(n: nat, d: nat, q: nat)
    requires d > 0
    ensures CeilDiv(n, d) <= q <==> n <= q * d
  {
    CeilBracket(n, d);
    if CeilDiv(n, d) <= q {
      MulCancel(CeilDiv(n, d), q, d);
    } else {
      MulStep(q, CeilDiv(n, d), d);
    }
  }

  lemma FloorMonotone(a: nat, b: nat, d: nat)
    requires d > 0 && a <= b
    ensures a / d <= b / d
  {
    FloorBracket(a, d);
    FloorAtLeast(b, d, a / d);
  }

  lemma CeilMonotone(a: nat, b: nat, d: nat)
    requires d > 0 && a <= b
    ensures CeilDiv(a, d) <= CeilDiv(b, d)
  {
    CeilBracket(b, d);
    CeilAtMost(a, d, CeilDiv(b, d));
  }

  /** The order of factors does not matter. */
  lemma MulSwap(x: int, y: int, z: int)
    ensures (x * y) * z == (x * z) * y
    ensures x * y == y * x
  {}
}
