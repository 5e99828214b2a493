/** Currency amounts (src/common/money/money.ts).

A Money value is a whole number of 1/10000 rupiah.  Every arithmetic result of
decimal.js is first rounded to 20 significant digits (the library default that
money.ts leaves in place) and then to 4 decimal places, each time half away from
zero.  `Sig20` is that first rounding. */
module Money {

  type Amount = int

  /** 10^20 units of 1/10000 rupiah, that is 10^16 rupiah. */
  const LIMIT: int := 100_000_000_000_000_000_000

  function Abs(n: int): nat { if n < 0 then -n else n }

  function Sign(n: int): int { if n < 0 then -1 else 1 }

  /** The quotient n / unit rounded to a whole number, halves away from zero. */
  function DivHalfUp(n: int, unit: int): int
    requires 0 < unit
  {
    Sign(n) * ((2 * Abs(n) + unit) / (2 * unit))
  }

  /** The weight of the last digit kept when n is written with 20 significant digits. */
  function SigUnit(n: nat): (unit: int)
    ensures 1 <= unit
    decreases n
  {
    if n < LIMIT then 1 else 10 * SigUnit(n / 10)
  }

  function Sig20(n: int): int {
    SigUnit(Abs(n)) * DivHalfUp(n, SigUnit(Abs(n)))
  }

  function Add(a: Amount, b: Amount): Amount { Sig20(a + b) }

  function Subtract(a: Amount, b: Amount): Amount { Sig20(a - b) }

  /** `rate` counts 1/1000000, so the exact product counts 10^-10 rupiah. */
  function Multiply(a: Amount, rate: int): Amount { DivHalfUp(Sig20(a * rate), 1_000_000) }

  function RoundToRupiah(a: Amount): Amount { DivHalfUp(a, 10_000) * 10_000 }

  /** Money.sum: a left fold of Add. */
  function Sum(amounts: seq<Amount>): Amount {
    if amounts == [] then 0 else Add(Sum(amounts[..|amounts| - 1]), amounts[|amounts| - 1])
  }

  function ExactSum(amounts: seq<Amount>): int {
    if amounts == [] then 0 else ExactSum(amounts[..|amounts| - 1]) + amounts[|amounts| - 1]
  }

  // ---- division facts -------------------------------------------------------

  lemma DivBounds(n: nat, unit: int)
    requires 0 < unit
    ensures 2 * n - unit < 2 * (unit * DivHalfUp(n, unit)) <= 2 * n + unit
  {
    var m, d := 2 * n + unit, 2 * unit;
    assert m == d * (m / d) + m % d;
    assert d * (m / d) == 2 * (unit * (m / d));
  }

  lemma {:induction false} TimesStep(unit: int, a: int, b: int)
    requires 0 < unit && a < b
    ensures unit * a + unit <= unit * b
    decreases b - a
  {
    assert unit * (b - 1) + unit == unit * b;
    if a < b - 1 { TimesStep(unit, a, b - 1); }
  }

  // q is the half-up quotient exactly when n lies in q's rounding interval.
  lemma DivUnique(n: nat, unit: int, q: int)
    requires 0 < unit
    requires 2 * n - unit < 2 * (unit * q) <= 2 * n + unit
    ensures DivHalfUp(n, unit) == q
  {
    var k := DivHalfUp(n, unit);
    DivBounds(n, unit);
    if k < q {
      TimesStep(unit, k, q);
    } else if q < k {
      TimesStep(unit, q, k);
    }
  }

  lemma DivMonotoneNat(m: nat, n: nat, unit: int)
    requires 0 < unit && m <= n
    ensures DivHalfUp(m, unit) <= DivHalfUp(n, unit)
  {
    DivBounds(m, unit);
    DivBounds(n, unit);
    if DivHalfUp(n, unit) < DivHalfUp(m, unit) {
      TimesStep(unit, DivHalfUp(n, unit), DivHalfUp(m, unit));
    }
  }

  lemma DivNonNegative(n: nat, unit: int)
    requires 0 < unit
    ensures 0 <= DivHalfUp(n, unit)
  {
  }

  lemma DivOdd(n: int, unit: int)
    requires 0 < unit
    ensures DivHalfUp(-n, unit) == -DivHalfUp(n, unit)
  {
    if n == 0 {
      assert unit / (2 * unit) == 0 by { DivUniqueSmall(unit); }
    }
  }

  lemma DivUniqueSmall(unit: int)
    requires 0 < unit
    ensures unit / (2 * unit) == 0
  {
  }

  lemma DivMonotone(m: int, n: int, unit: int)
    requires 0 < unit && m <= n
    ensures DivHalfUp(m, unit) <= DivHalfUp(n, unit)
  {
    if 0 <= m {
      DivMonotoneNat(m, n, unit);
    } else if n < 0 {
      DivMonotoneNat(-n, -m, unit);
      DivOdd(n, unit);
      DivOdd(m, unit);
    } else {
      DivNonNegative(n, unit);
      DivNonNegative(-m, unit);
      DivOdd(m, unit);
    }
  }

  lemma DivMultiple(q: int, unit: int)
    requires 0 < unit
    ensures DivHalfUp(q * unit, unit) == q
  {
    if 0 <= q {
      assert 0 <= q * unit;
      DivUnique(q * unit, unit, q);
    } else {
      assert 0 <= (-q) * unit == -(q * unit);
      DivUnique((-q) * unit, unit, -q);
      DivOdd(q * unit, unit);
    }
  }

  // ---- twenty significant digits ---------------------------------------------

  function Pow10(k: nat): (p: int)
    ensures 1 <= p
  {
    if k == 0 then 1 else 10 * Pow10(k - 1)
  }

  lemma {:induction false} SigUnitRange(n: nat)
    ensures n < LIMIT * SigUnit(n)
    ensures LIMIT <= n ==> LIMIT / 10 * SigUnit(n) <= n
    ensures 0 < n ==> SigUnit(n) <= n
  {
    if LIMIT <= n {
      SigUnitRange(n / 10);
    }
  }

  lemma {:induction false} SigUnitMonotone(m: nat, n: nat)
    requires m <= n
    ensures SigUnit(m) <= SigUnit(n)
    ensures SigUnit(m) < SigUnit(n) ==> 10 * SigUnit(m) <= SigUnit(n) && LIMIT <= n
  {
    if LIMIT <= m {
      SigUnitMonotone(m / 10, n / 10);
    }
  }

  // The unit is a power of ten, hence divides every larger power of ten.
  lemma {:induction false} SigUnitDivides(n: nat, k: nat)
    requires n < Pow10(k) * LIMIT
    ensures SigUnit(n) <= Pow10(k)
    ensures exists c: int :: Pow10(k) == c * SigUnit(n)
  {
    if n < LIMIT {
      assert Pow10(k) == Pow10(k) * SigUnit(n);
    } else {
      assert k > 0;
      SigUnitDivides(n / 10, k - 1);
      var c: int :| Pow10(k - 1) == c * SigUnit(n / 10);
      assert Pow10(k) == c * SigUnit(n);
    }
  }

  lemma SigOdd(n: int)
    ensures Sig20(-n) == -Sig20(n)
  {
    DivOdd(n, SigUnit(Abs(n)));
  }

  lemma SigSmall(n: int)
    requires -LIMIT < n < LIMIT
    ensures Sig20(n) == n
  {
    DivMultiple(n, 1);
  }

  // Rounding is harmless exactly when the digits it drops are all zero.
  lemma SigExactIff(n: int)
    ensures Sig20(n) == n <==> n % SigUnit(Abs(n)) == 0
  {
    var u := SigUnit(Abs(n));
    ModOfMultiple(DivHalfUp(n, u), u);
    assert DivHalfUp(n, u) * u == Sig20(n);
    if n % u == 0 {
      var q := n / u;
      assert n == q * u;
      DivMultiple(q, u);
    }
  }

  lemma ModOfMultiple(q: int, u: int)
    requires 0 < u
    ensures (q * u) % u == 0
  {
    var n := q * u;
    assert n == u * (n / u) + n % u;
    if n / u < q {
      TimesStep(u, n / u, q);
    } else if q < n / u {
      TimesStep(u, q, n / u);
    }
  }

  lemma SigMonotoneNat(m: nat, n: nat)
    requires m <= n
    ensures Sig20(m) <= Sig20(n)
  {
    SigUnitMonotone(m, n);
    if SigUnit(m) == SigUnit(n) {
      DivMonotoneNat(m, n, SigUnit(m));
      TimesMonotone(SigUnit(m), DivHalfUp(m, SigUnit(m)), DivHalfUp(n, SigUnit(n)));
    } else {
      SigMonotoneAcross(m, n);
    }
  }

  // A power of ten lies between the two numbers, and neither is rounded past it.
  lemma SigMonotoneAcross(m: nat, n: nat)
    requires m <= n && SigUnit(m) < SigUnit(n)
    ensures Sig20(m) <= Sig20(n)
  {
    calc {
      Sig20(m);
    <= { SigUnitRange(m); SigBelow(m, LIMIT); }
      LIMIT * SigUnit(m);
    <= { SigUnitMonotone(m, n); }
      LIMIT / 10 * SigUnit(n);
    <= { SigUnitMonotone(m, n); SigUnitRange(n); SigAbove(n, LIMIT / 10); }
      Sig20(n);
    }
  }

  lemma TimesMonotone(unit: int, a: int, b: int)
    requires 0 < unit && a <= b
    ensures unit * a <= unit * b
  {
  }

  lemma SigBelow(n: nat, q: int)
    requires n <= q * SigUnit(n)
    ensures Sig20(n) <= q * SigUnit(n)
  {
    hide SigUnit, DivHalfUp;
    var u := SigUnit(n);
    var top := q * u;
    DivMultiple(q, u);
    DivMonotone(n, top, u);
    TimesMonotone(u, DivHalfUp(n, u), q);
  }

  lemma SigAbove(n: nat, q: int)
    requires 0 <= q && q * SigUnit(n) <= n
    ensures q * SigUnit(n) <= Sig20(n)
  {
    hide SigUnit, DivHalfUp;
    var u := SigUnit(n);
    var low := q * u;
    DivMultiple(q, u);
    DivMonotone(low, n, u);
    TimesMonotone(u, q, DivHalfUp(n, u));
  }

  lemma SigMonotone(m: int, n: int)
    requires m <= n
    ensures Sig20(m) <= Sig20(n)
  {
    if 0 <= m {
      SigMonotoneNat(m, n);
    } else if n < 0 {
      SigMonotoneNat(-n, -m);
      SigOdd(m);
      SigOdd(n);
    } else {
      SigMonotoneNat(0, n);
      SigMonotoneNat(0, -m);
      SigSmall(0);
      SigOdd(m);
    }
  }

  // Rounding never loses the sign, so isZero and isNegative are exact.
  lemma SigSign(n: int)
    ensures Sig20(n) < 0 <==> n < 0
    ensures Sig20(n) == 0 <==> n == 0
  {
    if n == 0 {
      SigSmall(n);
    } else {
      SigUnitRange(Abs(n));
      SigAbove(Abs(n), 1);
      SigOdd(n);
    }
  }

  lemma SigError(n: int)
    ensures 2 * Abs(Sig20(n) - n) <= SigUnit(Abs(n))
  {
    DivBounds(Abs(n), SigUnit(Abs(n)));
    SigOdd(n);
  }

  // ---- Money.add, Money.subtract, Money.sum -----------------------------------

  /** Addition is exact if and only if the true sum fits 20 significant digits. */
  lemma AddExactIff(a: Amount, b: Amount)
    ensures Add(a, b) == a + b <==> (a + b) % SigUnit(Abs(a + b)) == 0
    ensures -LIMIT <= a + b <= LIMIT ==> Add(a, b) == a + b
  {
    SigExactIff(a + b);
    if a + b == LIMIT || a + b == -LIMIT {
      assert SigUnit(LIMIT) == 10 * SigUnit(LIMIT / 10) == 10;
    } else if -LIMIT < a + b < LIMIT {
      SigSmall(a + b);
    }
  }

  /** The limit is tight: just above it the last digit is lost. */
  lemma AddLosesDigit()
    ensures Add(LIMIT - 1, 2) == LIMIT
  {
    assert SigUnit(LIMIT + 1) == 10 * SigUnit((LIMIT + 1) / 10) == 10;
    DivUnique(LIMIT + 1, 10, LIMIT / 10);
  }

  lemma ExactSumNonNegative(amounts: seq<Amount>)
    requires forall i | 0 <= i < |amounts| :: 0 <= amounts[i]
    ensures 0 <= ExactSum(amounts)
  {
  }

  /** Summing non-negative amounts is exact as long as the total is at most 10^16 rupiah. */
  lemma {:induction false} SumExact(amounts: seq<Amount>)
    requires forall i | 0 <= i < |amounts| :: 0 <= amounts[i]
    requires ExactSum(amounts) <= LIMIT
    ensures Sum(amounts) == ExactSum(amounts)
  {
    if amounts != [] {
      var front := amounts[..|amounts| - 1];
      ExactSumNonNegative(front);
      SumExact(front);
      AddExactIff(ExactSum(front), amounts[|amounts| - 1]);
    }
  }

  // ---- tax rounding -----------------------------------------------------------

  /** base.multiply(rate).roundToRupiah(), the amount of one tax code. */
  function Tax(base: Amount, rate: int): Amount { RoundToRupiah(Multiply(base, rate)) }

  /** The exact product rounded once, half up, to whole rupiah. */
  function RoundedOnce(base: Amount, rate: int): Amount { DivHalfUp(base * rate, 10_000_000_000) * 10_000 }

  /** Where rounding to twenty digits, to four decimals and then to rupiah differs from rounding
      once.  `unit` is the weight of the twentieth digit of the product: while it is below a
      rupiah the gap lies just below one half, and beyond that it is everything further than
      half a rupiah from a multiple of the unit. */
  predicate InDoubleRoundingGap(product: int) {
    var n := Abs(product);
    var unit, fraction := SigUnit(n), n % 10_000_000_000;
    if unit <= 100_000 then fraction < 5_000_000_000 && 9_999_000_000 <= 2 * fraction + unit
    else if unit < 10_000_000_000 then fraction < 5_000_000_000 && 10_000_000_000 <= 2 * fraction + unit
    else if 2 * (n % unit) < unit then 5_000_000_000 <= n % unit
    else 5_000_000_000 < unit - n % unit
  }

  /** Error bounds in units of 10^-10 rupiah: 0.50005 below 10^10 rupiah, 0.5001 below 10^16. */
  lemma TaxError(base: Amount, rate: int)
    requires Abs(base * rate) < 1_000_000 * LIMIT
    ensures Abs(Tax(base, rate) * 1_000_000 - base * rate) <= 5_001_000_000
    ensures Abs(base * rate) < LIMIT ==> Abs(Tax(base, rate) * 1_000_000 - base * rate) <= 5_000_500_000
  {
    var p := base * rate;
    var s := Sig20(p);
    var m := DivHalfUp(s, 1_000_000);
    SigError(p);
    assert Pow10(6) == 1_000_000 by { Pow10Six(); }
    SigUnitDivides(Abs(p), 6);
    DivBounds(Abs(s), 1_000_000);
    DivOdd(s, 1_000_000);
    DivBounds(Abs(m), 10_000);
    DivOdd(m, 10_000);
  }

  lemma Pow10Six()
    ensures Pow10(6) == 1_000_000
  {
    assert Pow10(3) == 1000;
  }

  lemma {:induction false} PowersMultiply(j: nat, k: nat)
    ensures Pow10(j + k) == Pow10(j) * Pow10(k)
  {
    if j > 0 { PowersMultiply(j - 1, k); }
  }

  lemma {:induction false} UnitIsPower(n: nat) returns (k: nat)
    ensures SigUnit(n) == Pow10(k)
  {
    if n < LIMIT { k := 0; } else { k := UnitIsPower(n / 10); k := k + 1; }
  }

  lemma LargePowers()
    ensures Pow10(5) == 100_000 && Pow10(9) == 1_000_000_000 && Pow10(10) == 10_000_000_000
  {
    assert Pow10(3) == 1000;
    PowersMultiply(2, 3);
    PowersMultiply(4, 5);
    PowersMultiply(5, 5);
  }

  lemma {:induction false} PowersIncrease(j: nat, k: nat)
    requires j < k
    ensures 10 * Pow10(j) <= Pow10(k)
  {
    if j > 0 { PowersIncrease(j - 1, k - 1); }
  }

  // The twentieth digit's weight divides a tenth of a 4-decimal unit, or a tenth of a rupiah, or is
  // whole rupiah.
  lemma UnitCases(n: nat) returns (c: int)
    ensures var u := SigUnit(n);
      if u <= 100_000 then 100_000 == c * u
      else if u < 10_000_000_000 then 1_000_000 <= u && 1_000_000_000 == c * u
      else u == c * 10_000_000_000
  {
    hide Pow10, SigUnit;
    LargePowers();
    Pow10Six();
    var k := UnitIsPower(n);
    if k <= 5 {
      if k < 5 { PowersIncrease(k, 5); }
      PowersMultiply(5 - k, k);
      c := Pow10(5 - k);
    } else if k <= 9 {
      if k > 6 { PowersIncrease(6, k); }
      if k < 9 { PowersIncrease(k, 9); }
      PowersMultiply(9 - k, k);
      c := Pow10(9 - k);
    } else {
      if k > 10 { PowersIncrease(10, k); }
      PowersMultiply(k - 10, 10);
      c := Pow10(k - 10);
    }
  }

  // A half-up quotient reaches t exactly when n reaches t units less half a unit.
  lemma ReachesIff(n: nat, unit: int, t: int)
    requires 0 < unit
    ensures t <= DivHalfUp(n, unit) <==> 2 * (unit * t) <= 2 * n + unit
  {
    hide DivHalfUp;
    var d := DivHalfUp(n, unit);
    DivBounds(n, unit);
    if t < d { TimesStep(unit, t, d); }
    if d < t { TimesStep(unit, d, t); }
  }

  lemma RoundedReachesIff(s: nat, t: int)
    ensures t <= DivHalfUp(DivHalfUp(s, 1_000_000), 10_000) <==> 10_000_000_000 * t - 5_000_500_000 <= s
  {
    hide DivHalfUp;
    DivNonNegative(s, 1_000_000);
    var m := DivHalfUp(s, 1_000_000);
    ReachesIff(m, 10_000, t);
    ReachesIff(s, 1_000_000, 10_000 * t - 5_000);
  }

  // Twenty-digit rounding reaches a multiple of its unit exactly when the value comes within half a unit.
  lemma SigReachesIff(n: nat, q: int)
    ensures SigUnit(n) * q <= Sig20(n) <==> 2 * (SigUnit(n) * q) <= 2 * n + SigUnit(n)
  {
    hide SigUnit, DivHalfUp;
    var u := SigUnit(n);
    ReachesIff(n, u, q);
    var d := DivHalfUp(n, u);
    if q < d { TimesStep(u, q, d); }
    if d < q { TimesStep(u, d, q); }
  }

  lemma SigNat(n: nat)
    ensures 0 <= Sig20(n)
  {
    SigSign(n);
  }

  // When does rounding digits, decimals and rupiah in turn reach t rupiah?
  lemma TwiceReachesIff(n: nat, t: int)
    requires SigUnit(n) < 10_000_000_000
    ensures var u := SigUnit(n);
      t <= DivHalfUp(DivHalfUp(Sig20(n), 1_000_000), 10_000) <==>
        2 * (10_000_000_000 * t - (if u <= 100_000 then 5_000_500_000 else 5_000_000_000)) <= 2 * n + u
  {
    hide SigUnit, DivHalfUp, Sig20;
    var u, s := SigUnit(n), Sig20(n);
    SigNat(n);
    RoundedReachesIff(s, t);
    var c := UnitCases(n);
    if u <= 100_000 {
      var q := c * (100_000 * t - 50_005);
      assert u * q == (c * u) * (100_000 * t - 50_005) == 10_000_000_000 * t - 5_000_500_000;
      SigReachesIff(n, q);
    } else {
      var q := c * (10 * t - 5);
      assert u * q == (c * u) * (10 * t - 5) == 10_000_000_000 * t - 5_000_000_000;
      SigReachesIff(n, q);
      MultipleBelow(n, q);
    }
  }

  // A multiple of the unit that misses q units misses by a whole unit.
  lemma MultipleBelow(n: nat, q: int)
    ensures Sig20(n) < SigUnit(n) * q ==> Sig20(n) + SigUnit(n) <= SigUnit(n) * q
  {
    hide SigUnit, DivHalfUp;
    var u := SigUnit(n);
    var d := DivHalfUp(n, u);
    if d < q { TimesStep(u, d, q); } else if q < d { TimesStep(u, q, d); }
  }

  lemma OnceNat(n: nat)
    ensures DivHalfUp(n, 10_000_000_000)
         == n / 10_000_000_000 + (if 5_000_000_000 <= n % 10_000_000_000 then 1 else 0)
  {
    var q, f := n / 10_000_000_000, n % 10_000_000_000;
    assert n == 10_000_000_000 * q + f;
    DivUnique(n, 10_000_000_000, if 5_000_000_000 <= f then q + 1 else q);
  }

  lemma GapBelowRupiah(n: nat)
    requires SigUnit(n) < 10_000_000_000
    ensures DivHalfUp(DivHalfUp(Sig20(n), 1_000_000), 10_000) == DivHalfUp(n, 10_000_000_000) <==> !InDoubleRoundingGap(n)
  {
    hide SigUnit, DivHalfUp, Sig20;
    var q, f := n / 10_000_000_000, n % 10_000_000_000;
    assert n == 10_000_000_000 * q + f;
    OnceNat(n);
    var c := UnitCases(n);
    var once := DivHalfUp(n, 10_000_000_000);
    TwiceReachesIff(n, once);
    TwiceReachesIff(n, once + 1);
  }

  lemma GapAboveRupiah(n: nat)
    requires 10_000_000_000 <= SigUnit(n)
    ensures DivHalfUp(DivHalfUp(Sig20(n), 1_000_000), 10_000) == DivHalfUp(n, 10_000_000_000) <==> !InDoubleRoundingGap(n)
  {
    hide SigUnit, DivHalfUp;
    var u := SigUnit(n);
    var c := UnitCases(n);
    var d, g := n / u, n % u;
    assert n == u * d + g;
    var k := if 2 * g < u then d else d + 1;
    assert u * (d + 1) == u * d + u;
    DivUnique(n, u, k);
    assert Sig20(n) == u * k;
    var r := c * k;
    assert u * k == 10_000_000_000 * r;
    WholeRupiahStay(r);
    OnceIsIff(n, r);
  }

  lemma WholeRupiahStay(r: int)
    ensures DivHalfUp(DivHalfUp(10_000_000_000 * r, 1_000_000), 10_000) == r
  {
    hide DivHalfUp;
    assert 10_000_000_000 * r == (10_000 * r) * 1_000_000;
    DivMultiple(10_000 * r, 1_000_000);
    DivMultiple(r, 10_000);
  }

  lemma OnceIsIff(n: nat, r: int)
    ensures DivHalfUp(n, 10_000_000_000) == r <==> 2 * n - 10_000_000_000 < 20_000_000_000 * r <= 2 * n + 10_000_000_000
  {
    DivBounds(n, 10_000_000_000);
  }

  lemma GapNat(n: nat)
    ensures DivHalfUp(DivHalfUp(Sig20(n), 1_000_000), 10_000) == DivHalfUp(n, 10_000_000_000) <==> !InDoubleRoundingGap(n)
  {
    if SigUnit(n) < 10_000_000_000 { GapBelowRupiah(n); } else { GapAboveRupiah(n); }
  }

  /** For every base and rate: rounding to twenty digits and to 4 decimals first changes the
      tax exactly inside the gap. */
  lemma DoubleRoundingIff(base: Amount, rate: int)
    ensures Tax(base, rate) == RoundedOnce(base, rate) <==> !InDoubleRoundingGap(base * rate)
  {
    hide DivHalfUp, Sig20, SigUnit;
    var p := base * rate;
    GapNat(Abs(p));
    SigOdd(p);
    DivOdd(p, 10_000_000_000);
    DivOdd(Sig20(p), 1_000_000);
    DivOdd(DivHalfUp(Sig20(p), 1_000_000), 10_000);
  }

  lemma DoubleRoundingNat(p: nat)
    ensures DivHalfUp(DivHalfUp(p, 1_000_000), 10_000) == DivHalfUp(p, 10_000_000_000)
        <==> !(4_999_500_000 <= p % 10_000_000_000 < 5_000_000_000)
  {
    hide DivHalfUp;
    var q, f := p / 10_000_000_000, p % 10_000_000_000;
    var m := DivHalfUp(p, 1_000_000);
    assert p == 10_000_000_000 * q + f;
    DivBounds(p, 1_000_000);
    if f < 4_999_500_000 {
      DivUnique(m, 10_000, q);
      DivUnique(p, 10_000_000_000, q);
    } else if f < 5_000_000_000 {
      DivUnique(m, 10_000, q + 1);
      DivUnique(p, 10_000_000_000, q);
    } else {
      DivUnique(m, 10_000, q + 1);
      DivUnique(p, 10_000_000_000, q + 1);
    }
  }

  lemma FourDecimalsExact(k: int)
    requires Abs(k) < LIMIT
    ensures Sig20(k * 1_000_000) == k * 1_000_000
  {
    hide SigUnit, DivHalfUp, Pow10, Sig20;
    var p := k * 1_000_000;
    Pow10Six();
    SigUnitDivides(Abs(p), 6);
    var u := SigUnit(Abs(p));
    var c: int :| Pow10(6) == c * u;
    assert p == (k * c) * u;
    ModOfMultiple(k * c, u);
    SigExactIff(p);
  }

  lemma FourDecimalsNat(k: nat)
    ensures DivHalfUp(k, 10_000) == DivHalfUp(k * 1_000_000, 10_000_000_000)
  {
    hide DivHalfUp;
    DoubleRoundingNat(k * 1_000_000);
    DivMultiple(k, 1_000_000);
    var q := k / 10_000;
    assert (k * 1_000_000) % 10_000_000_000 == (k - 10_000 * q) * 1_000_000;
  }

  /** A product with at most four decimals is rounded as if once, up to 10^16 rupiah. */
  lemma FourDecimalsRoundOnce(base: Amount, rate: int)
    requires Abs(base * rate) < 1_000_000 * LIMIT && (base * rate) % 1_000_000 == 0
    ensures Tax(base, rate) == RoundedOnce(base, rate)
  {
    hide DivHalfUp, Sig20;
    var k := base * rate / 1_000_000;
    assert base * rate == k * 1_000_000;
    FourDecimalsExact(k);
    DivMultiple(k, 1_000_000);
    FourDecimalsNat(Abs(k));
    DivOdd(k, 10_000);
    DivOdd(k * 1_000_000, 10_000_000_000);
  }

  /** A larger base never owes less tax. */
  lemma TaxMonotone(base: Amount, larger: Amount, rate: int)
    requires base <= larger && 0 <= rate
    ensures Tax(base, rate) <= Tax(larger, rate)
  {
    assert base * rate <= larger * rate;
    SigMonotone(base * rate, larger * rate);
    DivMonotone(Sig20(base * rate), Sig20(larger * rate), 1_000_000);
    DivMonotone(Multiply(base, rate), Multiply(larger, rate), 10_000);
  }

  /** 9.09 at 5.5% is 0.49995: rounded to 0.5000 and then up to one rupiah. */
  lemma DoubleRoundingExample()
    ensures Tax(90_900, 55_000) != RoundedOnce(90_900, 55_000)
  {
    DoubleRoundingIff(90_900, 55_000);
  }
}
