/** When one more token costs more: the source calls the cost of a buy strictly increasing,
    and rounding decides exactly where it is. */
module CurveStrictness {
  import opened Numbers
  import opened Curve
  import opened CurveLaws

  /** The amounts up to `n` are all within the cap and priced. */
  predicate Priced(c: CurveParams, s: U64, n: U64) {
    c.denom > 0 && s + n <= c.cap && CostToBuy(c, s, n).Ok?
  }

  lemma PricedBelow(c: CurveParams, s: U64, a: U64, n: U64)
    requires Priced(c, s, n) && a <= n
    ensures Priced(c, s, a)
  {
    CostMonotone(c, s, a, n);
  }

  /** The cost of an amount, where it is priced. */
  function Price(c: CurveParams, s: U64, a: U64): nat
    requires Priced(c, s, a)
  {
    CostToBuy(c, s, a).value
  }

  /** The ceiling of a larger number is the same exactly when it still covers that number. */
  lemma SameCeiling(x: int, y: int, u: int, v: int, d: nat)
    requires d > 0 && u <= v
    requires u <= x * d < u + d && v <= y * d < v + d
    ensures y == x <==> v <= x * d
  {
    MulAdd(x, 1, d);
    MulAdd(y, 1, d);
    MulCancel(x, y + 1, d);
    MulCancel(y, x + 1, d);
  }

  /** One more token costs no more exactly when the price already paid covers its area. */
  lemma CostStaysExactlyWhen(c: CurveParams, s: U64, a: U64)
    requires c.denom > 0 && a < U64_MAX && CostToBuy(c, s, a).Ok? && CostToBuy(c, s, a + 1).Ok?
    ensures CostToBuy(c, s, a + 1) == CostToBuy(c, s, a) <==>
            Area(c, s + a + 1) - Area(c, s) <= CostToBuy(c, s, a).value * (2 * c.denom)
  {
    var x, y := CostToBuy(c, s, a).value, CostToBuy(c, s, a + 1).value;
    CostBracket(c, s, a);
    CostBracket(c, s, a + 1);
    AreaMonotone(c, s + a, s + a + 1);
    hide CostToBuy, Area;
    assert s + (a + 1) == s + a + 1;
    SameCeiling(x, y, Area(c, s + a) - Area(c, s), Area(c, s + a + 1) - Area(c, s), 2 * c.denom);
  }

  // ---- The area of the next token -------------------------------------------------------

  /** Twice the area under the curve of the token after the first `s`, times `denom`. */
  function NextArea(c: CurveParams, s: nat): nat {
    2 * c.p0 + c.k * (2 * s + 1)
  }

  lemma NextAreaIsDifference(c: CurveParams, s: nat)
    ensures Area(c, s + 1) - Area(c, s) == NextArea(c, s)
  {
    AreaDifference(c, s, s + 1);
  }

  lemma NextAreaGrows(c: CurveParams, s: nat, t: nat)
    requires s <= t
    ensures NextArea(c, s) <= NextArea(c, t)
  {
    MulNonNegative(c.k, 2 * (t - s));
    assert c.k * (2 * t + 1) == c.k * (2 * s + 1) + c.k * (2 * (t - s));
  }

  /** The next token's own area is below one sat. */
  predicate Cheap(c: CurveParams, s: nat) {
    NextArea(c, s) < 2 * c.denom
  }

  /** Of the next `n` tokens, the number that are cheap: as the price does not fall, they
      come first. */
  function CheapTokens(c: CurveParams, s: nat, n: nat): (m: nat)
    ensures m <= n
    ensures m > 0 ==> Cheap(c, s + m - 1)
    ensures forall t: nat :: s + m <= t < s + n ==> !Cheap(c, t)
  {
    if n == 0 || Cheap(c, s + n - 1) then n else CheapTokens(c, s, n - 1)
  }

  lemma CheapComesFirst(c: CurveParams, s: U64, n: nat, i: nat)
    requires i < n
    ensures i < CheapTokens(c, s, n) <==> Cheap(c, s + i)
  {
    if i < CheapTokens(c, s, n) {
      NextAreaGrows(c, s + i, s + CheapTokens(c, s, n) - 1);
    }
  }

  /** A token of at least one sat's area raises the price; a cheaper one by at most one sat. */
  lemma NextPrice(c: CurveParams, s: U64, a: U64)
    requires a < U64_MAX && Priced(c, s, a) && Priced(c, s, a + 1)
    ensures !Cheap(c, s + a) ==> Price(c, s, a) < Price(c, s, a + 1)
    ensures Cheap(c, s + a) ==> Price(c, s, a + 1) <= Price(c, s, a) + 1
  {
    var x, y, d, next := Price(c, s, a), Price(c, s, a + 1), 2 * c.denom, NextArea(c, s + a);
    CostBracket(c, s, a);
    CostBracket(c, s, a + 1);
    NextAreaIsDifference(c, s + a);
    assert Area(c, s + (a + 1)) == Area(c, s + a) + next;
    var u, v := Area(c, s + a) - Area(c, s), Area(c, s + (a + 1)) - Area(c, s);
    assert u <= x * d < u + d && v <= y * d < v + d && v == u + next;
    hide CostToBuy, Area, NextArea, Price;
    MulAdd(x, 2, d);
    if next >= d {
      MulCancel(x, y, d);
    } else {
      MulCancel(y, x + 2, d);
    }
  }

  // ---- Strictness -----------------------------------------------------------------------

  /** Every further token up to `n` raises the price. */
  ghost predicate StrictUpTo(c: CurveParams, s: U64, n: U64)
    requires Priced(c, s, n)
  {
    forall a: U64 :: a < n ==> Rises(c, s, a)
  }

  predicate Rises(c: CurveParams, s: U64, a: U64) {
    a < U64_MAX && Priced(c, s, a) && Priced(c, s, a + 1) && Price(c, s, a) < Price(c, s, a + 1)
  }

  /** Cheap tokens cost at most one sat each. */
  lemma {:induction false} CheapGrowth(c: CurveParams, s: U64, n: U64, a: U64, b: U64)
    requires Priced(c, s, n) && a <= b <= CheapTokens(c, s, n)
    ensures Priced(c, s, a) && Priced(c, s, b) && Price(c, s, b) <= Price(c, s, a) + (b - a)
    decreases b - a
  {
    hide CheapTokens, Cheap, Price;
    PricedBelow(c, s, a, n);
    PricedBelow(c, s, b, n);
    if a < b {
      CheapGrowth(c, s, n, a, b - 1);
      CheapComesFirst(c, s, n, b - 1);
      NextPrice(c, s, b - 1);
    }
  }

  /** If every token raises the price, cheap ones cost at least one sat each. */
  lemma {:induction false} StrictGrowth(c: CurveParams, s: U64, n: U64, a: U64)
    requires Priced(c, s, n) && StrictUpTo(c, s, n) && a <= n
    ensures Priced(c, s, a) && Price(c, s, a) >= a
    decreases a
  {
    PricedBelow(c, s, a, n);
    if a > 0 {
      StrictGrowth(c, s, n, a - 1);
      assert Rises(c, s, a - 1);
    }
  }

  lemma RisesWhenCheapCostsOne(c: CurveParams, s: U64, n: U64, a: U64)
    requires Priced(c, s, n) && a < n
    requires CheapTokens(c, s, n) <= n && Priced(c, s, CheapTokens(c, s, n))
    requires Price(c, s, CheapTokens(c, s, n)) == CheapTokens(c, s, n)
    ensures Rises(c, s, a)
  {
    var m := CheapTokens(c, s, n);
    PricedBelow(c, s, 0, n);
    assert Price(c, s, 0) == 0;
    PricedBelow(c, s, a, n);
    PricedBelow(c, s, a + 1, n);
    hide CheapTokens, Cheap, Price;
    if a < m {
      CheapGrowth(c, s, n, 0, a);
      CheapGrowth(c, s, n, 0, a + 1);
      CheapGrowth(c, s, n, a + 1, m);
    } else {
      CheapComesFirst(c, s, n, a);
      NextPrice(c, s, a);
    }
  }

  /** The cost is strictly increasing over the first `n` tokens exactly when its cheap tokens
      together cost one sat each. */
  lemma StrictExactlyWhen(c: CurveParams, s: U64, n: U64)
    requires Priced(c, s, n)
    ensures StrictUpTo(c, s, n) <==> CostToBuy(c, s, CheapTokens(c, s, n)) == Ok(CheapTokens(c, s, n))
  {
    var m := CheapTokens(c, s, n);
    PricedBelow(c, s, m, n);
    PricedBelow(c, s, 0, n);
    assert Price(c, s, 0) == 0;
    hide CheapTokens, Cheap;
    if StrictUpTo(c, s, n) {
      StrictGrowth(c, s, n, m);
      CheapGrowth(c, s, n, 0, m);
    }
    if Price(c, s, m) == m {
      forall a: U64 | a < n
        ensures Rises(c, s, a)
      {
        RisesWhenCheapCostsOne(c, s, n, a);
      }
    }
  }

  /** Where the next token alone is worth a sat, the cost is strictly increasing from there
      on; and where as many tokens as the doubled denominator are not, it is not. */
  lemma StrictOnceATokenIsWorthASat(c: CurveParams, s: U64, n: U64)
    requires Priced(c, s, n)
    ensures !Cheap(c, s) ==> StrictUpTo(c, s, n)
    ensures n >= 2 * c.denom && Cheap(c, s + 2 * c.denom - 1) ==> !StrictUpTo(c, s, n)
  {
    var m, d := CheapTokens(c, s, n), 2 * c.denom;
    StrictExactlyWhen(c, s, n);
    if !Cheap(c, s) {
      if n > 0 {
        CheapComesFirst(c, s, n, 0);
      }
    }
    if n >= d && Cheap(c, s + d - 1) {
      CheapComesFirst(c, s, n, d - 1);
      PricedBelow(c, s, m, n);
      CheapArea(c, s, n, m);
      CostMeaning(c, s, m);
      MulAdd(m, -1, d);
      CeilAtMost(Area(c, s + m) - Area(c, s), d, m - 1);
    }
  }

  lemma {:induction false} CheapArea(c: CurveParams, s: U64, n: nat, m: nat)
    requires c.denom > 0 && m <= CheapTokens(c, s, n)
    ensures Area(c, s + m) - Area(c, s) <= m * (2 * c.denom) - m
    decreases m
  {
    if m > 0 {
      CheapArea(c, s, n, m - 1);
      CheapComesFirst(c, s, n, m - 1);
      NextAreaIsDifference(c, s + (m - 1));
      MulAdd(m - 1, 1, 2 * c.denom);
    }
  }

  /** On a flat curve with as many tokens left as the denominator, the cost is strictly
      increasing exactly when a token costs at least a sat. */
  lemma FlatIsStrictExactlyWhen(c: CurveParams, s: U64, n: U64)
    requires Priced(c, s, n) && c.k == 0 && n >= c.denom
    ensures StrictUpTo(c, s, n) <==> c.p0 >= c.denom
  {
    var d := 2 * c.denom;
    StrictExactlyWhen(c, s, n);
    if c.p0 >= c.denom {
      CheapComesFirst(c, s, n, 0);
    } else {
      CheapComesFirst(c, s, n, n - 1);
      assert CheapTokens(c, s, n) == n;
      CostMeaning(c, s, n);
      FlatArea(c, s, n);
      CeilAtMost(Area(c, s + n) - Area(c, s), d, n - 1);
    }
  }

  lemma FlatArea(c: CurveParams, s: U64, n: U64)
    requires c.k == 0 && c.p0 < c.denom && n >= c.denom
    ensures Area(c, s + n) - Area(c, s) <= (n - 1) * (2 * c.denom)
  {
    AreaDifference(c, s, s + n);
    hide Area;
    assert Area(c, s + n) - Area(c, s) == n * (2 * c.p0);
    BelowOneEach(n, 2 * c.p0, 2 * c.denom);
  }

  lemma BelowOneEach(n: nat, q: nat, r: nat)
    requires q + 2 <= r <= 2 * n
    ensures n * q <= (n - 1) * r
  {
    MulNonNegative(r - 2 - q, n);
    MulAdd(r - 2, q, n);
    MulAdd(r, 2, n);
    MulAdd(n, 1, r);
    assert n * q == q * n && n * r == r * n;
  }
}
