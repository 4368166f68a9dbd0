/**
  Display rounding and the percentage contract of the calculation engine, in decimal
  arithmetic of 38 digits that rounds halves away from zero.

  A decimal is an integer coefficient and a power of ten. Values are compared by their
  coefficients at a common exponent, so no fraction is ever approximated.
 */
module DecimalRounding {

  import opened DecimalText
  import opened Wrappers

  datatype Dec = Dec(coef: int, exp: int)

  datatype DecError = InvalidOperation | UnitMismatch

  /** 10^38, the first coefficient with more than 38 digits. */
  const LIMIT: nat := 100000000000000000000000000000000000000

  function Abs(n: int): nat {
    if n < 0 then -n else n
  }

  function Least(x: int, y: int): int {
    if x < y then x else y
  }

  /** The coefficient of a value at an exponent no greater than its own. */
  function At(d: Dec, e: int): int
    requires e <= d.exp
  {
    d.coef * Pow10(d.exp - e)
  }

  predicate SameValue(a: Dec, b: Dec) {
    At(a, Least(a.exp, b.exp)) == At(b, Least(a.exp, b.exp))
  }

  predicate LessEqual(a: Dec, b: Dec) {
    At(a, Least(a.exp, b.exp)) <= At(b, Least(a.exp, b.exp))
  }

  /** Division by a positive integer, halves away from zero. */
  function HalfUp(c: int, d: nat): int
    requires d > 0
  {
    var q := Abs(c) / d;
    var n := if 2 * (Abs(c) % d) >= d then q + 1 else q;
    if c < 0 then -n else n
  }

  // ----------------------------------------------------- quantizing for display

  function Rescaled(d: Dec, e: int): Dec {
    if d.exp >= e then Dec(At(d, e), e) else Dec(HalfUp(d.coef, Pow10(e - d.exp)), e)
  }

  /** quantize: a coefficient of more than 38 digits is refused. */
  function Quantize(d: Dec, e: int): Result<Dec, DecError> {
    if Abs(Rescaled(d, e).coef) >= LIMIT then Err(InvalidOperation) else Ok(Rescaled(d, e))
  }

  /** The exponent of Decimal(10) ** -p: a power above one is written out, in 38 digits at most. */
  function PatternExp(p: int): int {
    if p >= 0 then -p else if p >= -37 then 0 else -p - 37
  }

  function ToQuantizedDisplay(unrounded: Dec, displayPrecision: int): Result<Dec, DecError> {
    Quantize(unrounded, PatternExp(displayPrecision))
  }

  // ---------------------------------------------------------- integer rounding

  lemma DivisionFacts(n: nat, d: nat)
    requires d > 0
    ensures n == n / d * d + n % d && 0 <= n % d < d
  {
  }

  /** m is within half of d of c, at exactly half only when it is no closer to zero. */
  predicate Near(c: int, m: int, d: nat) {
    Abs(2 * (m - c)) <= d && (Abs(2 * (m - c)) == d ==> Abs(m) >= Abs(c))
  }

  /** h * d is the multiple of d nearest to c, a tie going away from zero. */
  predicate Nearest(c: int, d: nat, h: int) {
    Near(c, h * d, d)
  }

  lemma HalfUpIsNearest(c: int, d: nat)
    requires d > 0
    ensures Nearest(c, d, HalfUp(c, d))
    ensures HalfUp(-c, d) == -HalfUp(c, d)
  {
    DivisionFacts(Abs(c), d);
    var q := Abs(c) / d;
    assert (q + 1) * d == q * d + d;
    assert (-q) * d == -(q * d) && (-(q + 1)) * d == -((q + 1) * d);
    assert Abs(-c) == Abs(c);
  }

  lemma AtLeast(t: nat, d: nat)
    requires t > 0
    ensures t * d >= d
  {
    assert t * d == (t - 1) * d + d;
  }

  lemma Ordered(x: int, y: int, d: nat)
    requires d > 0 && x > y
    ensures x * d >= y * d + d
    ensures y >= 0 ==> y * d >= 0
    ensures x <= 0 ==> x * d <= 0
  {
    AtLeast(x - y, d);
    assert (x - y) * d == x * d - y * d;
    if y > 0 { AtLeast(y, d); }
    if x < 0 { AtLeast(-x, d); }
  }

  /** Of two numbers at least d apart, the lower is not near a value above one the upper is near. */
  lemma LowerIsNotNear(c: int, x: int, c': int, y: int, d: nat)
    requires d > 0 && x >= y + d && c <= c' && (y >= 0 || x <= 0) && Near(c, x, d)
    ensures !Near(c', y, d)
  {
  }

  /** Rounding preserves order. */
  lemma NearestOrdered(c: int, g: int, c': int, h: int, d: nat)
    requires d > 0 && Nearest(c, d, g) && Nearest(c', d, h) && c <= c'
    ensures g <= h
  {
    if g > h {
      var x, y := g * d, h * d;
      assert Near(c, x, d) && Near(c', y, d);
      Ordered(g, h, d);
      LowerIsNotNear(c, x, c', y, d);
    }
  }

  /** Nothing but HalfUp is the nearest with ties away from zero. */
  lemma HalfUpOnly(c: int, d: nat, h: int)
    requires d > 0
    ensures Nearest(c, d, h) <==> h == HalfUp(c, d)
  {
    HalfUpIsNearest(c, d);
    if Nearest(c, d, h) {
      NearestOrdered(c, h, c, HalfUp(c, d), d);
      NearestOrdered(c, HalfUp(c, d), c, h, d);
    }
  }

  /** Rounding changes nothing exactly when there is nothing to round. */
  lemma HalfUpExact(c: int, d: nat)
    requires d > 0
    ensures HalfUp(c, d) * d == c <==> Abs(c) % d == 0
  {
    DivisionFacts(Abs(c), d);
    var q := Abs(c) / d;
    assert (q + 1) * d == q * d + d;
    assert (-q) * d == -(q * d) && (-(q + 1)) * d == -((q + 1) * d);
  }

  // ---------------------------------------------------------- changing exponents

  lemma {:induction false} PowSum(a: nat, b: nat)
    ensures Pow10(a + b) == Pow10(a) * Pow10(b)
  {
    if a > 0 {
      PowSum(a - 1, b);
      assert Pow10(a) == 10 * Pow10(a - 1) && Pow10(a + b) == 10 * Pow10(a - 1 + b);
      Reassociate(10, Pow10(a - 1), Pow10(b));
    }
  }

  lemma Reassociate(x: int, y: int, z: int)
    ensures x * (y * z) == x * y * z
  {
  }

  lemma AtShift(d: Dec, e: int, k: nat)
    requires e <= d.exp
    ensures At(d, e - k) == At(d, e) * Pow10(k)
  {
    var j := d.exp - e;
    assert d.exp - (e - k) == j + k;
    PowSum(j, k);
    Reassociate(d.coef, Pow10(j), Pow10(k));
  }

  lemma MultiplesCompare(x: int, y: int, p: nat)
    requires p > 0
    ensures x <= y <==> x * p <= y * p
    ensures x == y <==> x * p == y * p
  {
    if x < y { Ordered(y, x, p); }
    if x > y { Ordered(x, y, p); }
  }

  /** Values may be compared at any exponent that is low enough. */
  lemma ComparedAt(a: Dec, b: Dec, e: int)
    requires e <= a.exp && e <= b.exp
    ensures SameValue(a, b) <==> At(a, e) == At(b, e)
    ensures LessEqual(a, b) <==> At(a, e) <= At(b, e)
  {
    var m := Least(a.exp, b.exp);
    AtShift(a, m, m - e);
    AtShift(b, m, m - e);
    MultiplesCompare(At(a, m), At(b, m), Pow10(m - e));
  }

  lemma AbsProduct(x: int, p: nat)
    ensures Abs(x * p) == Abs(x) * p
  {
    if x < 0 {
      assert x * p == -((-x) * p);
      if p > 0 { AtLeast(-x, p); }
    } else if x > 0 {
      AtLeast(x, p);
    }
  }

  lemma GapScaled(m: int, c: int, p: nat)
    ensures Abs(2 * (m * p - c * p)) == Abs(2 * (m - c)) * p
  {
    assert 2 * (m * p - c * p) == 2 * (m - c) * p;
    AbsProduct(2 * (m - c), p);
  }

  /** Nearness does not depend on the unit it is measured in. */
  lemma NearestScaled(c: int, d: nat, h: int, p: nat)
    requires p > 0
    ensures Nearest(c, d, h) <==> Nearest(c * p, d * p, h)
  {
    var m := h * d;
    assert h * (d * p) == m * p by { Reassociate(h, d, p); }
    GapScaled(m, c, p);
    AbsProduct(m, p);
    AbsProduct(c, p);
    MultiplesCompare(Abs(2 * (m - c)), d, p);
    MultiplesCompare(Abs(c), Abs(m), p);
  }

  // ------------------------------------------------------- display rounding laws

  /** r is d within half a unit of r's last place, a tie going away from zero. */
  predicate RoundsTo(d: Dec, r: Dec) {
    var m := Least(d.exp, r.exp);
    Nearest(At(d, m), Pow10(r.exp - m), r.coef)
  }

  lemma RoundsToAt(d: Dec, r: Dec, e: int)
    requires e <= d.exp && e <= r.exp
    ensures RoundsTo(d, r) <==> Nearest(At(d, e), Pow10(r.exp - e), r.coef)
  {
    var m := Least(d.exp, r.exp);
    AtShift(d, m, m - e);
    assert r.exp - e == (r.exp - m) + (m - e);
    PowSum(r.exp - m, m - e);
    NearestScaled(At(d, m), Pow10(r.exp - m), r.coef, Pow10(m - e));
  }

  lemma RescaledRounds(d: Dec, e: int)
    ensures RoundsTo(d, Rescaled(d, e))
    ensures d.exp >= e ==> SameValue(Rescaled(d, e), d)
  {
    assert Pow10(0) == 1;
    if d.exp < e {
      HalfUpIsNearest(d.coef, Pow10(e - d.exp));
    }
  }

  /** Within half a unit of the last place, ties away from zero, and no other decimal of that exponent is. */
  lemma DisplayRoundsExactly(d: Dec, p: int, r: Dec)
    requires ToQuantizedDisplay(d, p).Ok? && r.exp == PatternExp(p)
    ensures RoundsTo(d, r) <==> r == ToQuantizedDisplay(d, p).value
  {
    var q, e := ToQuantizedDisplay(d, p).value, PatternExp(p);
    var m := Least(d.exp, e);
    RescaledRounds(d, e);
    HalfUpOnly(At(d, m), Pow10(e - m), r.coef);
    HalfUpOnly(At(d, m), Pow10(e - m), q.coef);
  }

  /** The pattern is a power of ten: its exponent is asked for, or it is written out in as many digits as fit. */
  lemma PatternIsPower(p: int) returns (c: nat)
    ensures SameValue(Dec(c, PatternExp(p)), Dec(1, -p)) && 0 < c < LIMIT
    ensures p >= 0 ==> c == 1
    ensures p < 0 ==> PatternExp(p) >= 0 && (PatternExp(p) > 0 ==> 10 * c == LIMIT)
  {
    var e := PatternExp(p);
    c := Pow10(-p - e);
    assert Pow10(0) == 1;
    PowersUpToLimit(-p - e);
    ComparedAt(Dec(c, e), Dec(1, -p), e);
  }

  lemma {:induction false} PowersGrow(k: nat, m: nat)
    requires k <= m
    ensures Pow10(k) <= Pow10(m)
  {
    if k < m {
      PowersGrow(k, m - 1);
    }
  }

  lemma Nines()
    ensures Pow10(9) == 1000000000
  {
    SmallPowers();
    PowSum(3, 3);
    PowSum(6, 3);
  }

  lemma LimitIsPower()
    ensures Pow10(38) == LIMIT
  {
    Nines();
    SmallPowers();
    PowSum(9, 9);
    assert Pow10(18) == 1000000000000000000;
    PowSum(18, 18);
    assert Pow10(36) == 1000000000000000000000000000000000000;
    PowSum(36, 2);
  }

  lemma PowersUpToLimit(k: nat)
    requires k <= 37
    ensures 0 < Pow10(k) < LIMIT && (k == 37 ==> 10 * Pow10(k) == LIMIT)
  {
    PowersGrow(k, 37);
    LimitIsPower();
    assert Pow10(38) == 10 * Pow10(37);
  }

  /**
    The display has the places asked for exactly when none are asked for before the point;
    down to 37 of those it is the display of precision 0.
   */
  lemma DisplayPlaces(d: Dec, p: int)
    requires ToQuantizedDisplay(d, p).Ok?
    ensures ToQuantizedDisplay(d, p).value.exp == -p <==> p >= 0
    ensures -37 <= p < 0 ==> ToQuantizedDisplay(d, p) == ToQuantizedDisplay(d, 0)
  {
  }

  /** Rounding what was rounded changes nothing. */
  lemma DisplayIdempotent(d: Dec, p: int)
    requires ToQuantizedDisplay(d, p).Ok?
    ensures ToQuantizedDisplay(ToQuantizedDisplay(d, p).value, p) == ToQuantizedDisplay(d, p)
  {
    assert Pow10(0) == 1;
  }

  function Negated(d: Dec): Dec {
    Dec(-d.coef, d.exp)
  }

  /** Display rounding is odd, refusals included. */
  lemma DisplayOdd(d: Dec, p: int)
    ensures ToQuantizedDisplay(Negated(d), p) ==
            match ToQuantizedDisplay(d, p) case Ok(r) => Ok(Negated(r)) case Err(e) => Err(e)
  {
    var e := PatternExp(p);
    if d.exp >= e {
      assert (-d.coef) * Pow10(d.exp - e) == -(d.coef * Pow10(d.exp - e));
    } else {
      HalfUpIsNearest(d.coef, Pow10(e - d.exp));
    }
  }

  lemma RoundingOrdered(a: Dec, b: Dec, g: Dec, h: Dec)
    requires g.exp == h.exp && LessEqual(a, b) && RoundsTo(a, g) && RoundsTo(b, h)
    ensures g.coef <= h.coef
  {
    var e := Least(Least(a.exp, b.exp), g.exp);
    ComparedAt(a, b, e);
    RoundsToAt(a, g, e);
    RoundsToAt(b, h, e);
    NearestOrdered(At(a, e), g.coef, At(b, e), h.coef, Pow10(g.exp - e));
  }

  /** Display rounding preserves order. */
  lemma DisplayMonotone(a: Dec, b: Dec, p: int)
    requires ToQuantizedDisplay(a, p).Ok? && ToQuantizedDisplay(b, p).Ok?
    requires LessEqual(a, b)
    ensures LessEqual(ToQuantizedDisplay(a, p).value, ToQuantizedDisplay(b, p).value)
  {
    var g, h := ToQuantizedDisplay(a, p).value, ToQuantizedDisplay(b, p).value;
    RescaledRounds(a, PatternExp(p));
    RescaledRounds(b, PatternExp(p));
    RoundingOrdered(a, b, g, h);
    assert Pow10(0) == 1;
  }

  lemma MagnitudeAt(n: nat, c: int, d: nat)
    requires d > 0
    ensures Abs(HalfUp(c, d)) >= n <==> n == 0 || 2 * Abs(c) >= (2 * n - 1) * d
  {
    var q, r := Abs(c) / d, Abs(c) % d;
    DivisionFacts(Abs(c), d);
    assert (2 * n - 1) * d == 2 * (n * d) - d;
    if q > n { Ordered(q, n, d); }
    if q < n { Ordered(n, q, d); if q + 1 < n { Ordered(n, q + 1, d); assert (q + 1) * d == q * d + d; } }
  }

  /**
    A decimal is refused exactly when it lies at least half a unit of the display's last
    place above the largest 38-digit display, in magnitude.
   */
  lemma DisplayRefusesExactly(d: Dec, p: int)
    ensures ToQuantizedDisplay(d, p).Err? <==>
              var m := Least(d.exp, PatternExp(p));
              2 * Abs(At(d, m)) >= (2 * LIMIT - 1) * Pow10(PatternExp(p) - m)
  {
    var e := PatternExp(p);
    var m := Least(d.exp, e);
    assert Pow10(0) == 1;
    if d.exp < e {
      MagnitudeAt(LIMIT, d.coef, Pow10(e - d.exp));
    }
  }

  // --------------------------------------------------------- the percentage contract

  /** Digits beyond the 38th. */
  function Excess(n: nat): nat {
    if n < LIMIT then 0 else 1 + Excess(n / 10)
  }

  /** A result brought to 38 digits. */
  function Fix(d: Dec): Dec {
    var k := Excess(Abs(d.coef));
    Dec(HalfUp(d.coef, Pow10(k)), d.exp + k)
  }

  /** The exact hundredth. */
  function Hundredth(d: Dec): Dec {
    Dec(d.coef, d.exp - 2)
  }

  function DivideByHundred(d: Dec): Dec {
    Fix(Hundredth(d))
  }

  function MultiplyByHundred(d: Dec): Dec {
    Fix(Dec(d.coef * 100, d.exp))
  }

  function ToWorkingFraction(value: Dec, unit: string): Result<Dec, DecError> {
    if unit == "" then Err(UnitMismatch)
    else if unit == "PERCENT" then Ok(DivideByHundred(value))
    else if unit == "CURRENCY" || unit == "COUNT" || unit == "RATIO" || unit == "ONE" then Ok(value)
    else Err(UnitMismatch)
  }

  /** At most 38 significant digits: what is beyond them is zeros. */
  predicate FitsContext(d: Dec) {
    Abs(d.coef) % Pow10(Excess(Abs(d.coef))) == 0
  }

  lemma FixExactly(d: Dec)
    ensures SameValue(Fix(d), d) <==> FitsContext(d)
    ensures At(Fix(d), d.exp) == d.coef <==> FitsContext(d)
  {
    assert Pow10(0) == 1;
    HalfUpExact(d.coef, Pow10(Excess(Abs(d.coef))));
  }

  lemma SmallMultiple(t: int, d: nat)
    requires -(d as int) < t * d < d
    ensures t == 0
  {
    if t > 0 {
      Ordered(t, 0, d);
    } else if t < 0 {
      Ordered(0, t, d);
    }
  }

  lemma QuotientIs(n: nat, d: nat, q: nat, r: nat)
    requires d > 0 && n == q * d + r && r < d
    ensures n / d == q
  {
    DivisionFacts(n, d);
    var p, u := n / d, n % d;
    assert n == p * d + u;
    assert (p - q) * d == p * d - q * d;
    SmallMultiple(p - q, d);
  }

  lemma DivideTwice(n: nat, d: nat)
    requires d > 0
    ensures n / 10 / d == n / (10 * d)
  {
    var m, q, r := n / 10, n / 10 / d, n / 10 % d;
    DivisionFacts(m, d);
    assert n == 10 * m + n % 10;
    assert 10 * (q * d) == q * (10 * d);
    QuotientIs(n, 10 * d, q, 10 * r + n % 10);
  }

  lemma {:induction false} ExcessRemoved(n: nat)
    ensures n / Pow10(Excess(n)) < LIMIT
  {
    if n >= LIMIT {
      ExcessRemoved(n / 10);
      DivideTwice(n, Pow10(Excess(n / 10)));
    }
  }

  lemma HalfUpBound(c: int, d: nat)
    requires d > 0
    ensures Abs(HalfUp(c, d)) <= Abs(c) / d + 1
  {
  }

  /** Thirty-eight digits, or the 10^38 that 38 nines round up to. */
  lemma FixedIsShort(d: Dec)
    ensures Abs(Fix(d).coef) <= LIMIT
  {
    var n := Abs(d.coef);
    ExcessRemoved(n);
    HalfUpBound(d.coef, Pow10(Excess(n)));
  }

  lemma SmallPowers()
    ensures Pow10(0) == 1 && Pow10(1) == 10 && Pow10(2) == 100 && Pow10(3) == 1000
  {
    assert Pow10(1) == 10 * Pow10(0) && Pow10(2) == 10 * Pow10(1) && Pow10(3) == 10 * Pow10(2);
  }

  lemma ExcessOfHundredfold(m: nat)
    requires m <= LIMIT
    ensures Excess(m * 100) <= 2 || (m == LIMIT && Excess(m * 100) == 3)
  {
    var n := m * 100;
    assert n / 10 == m * 10 && n / 10 / 10 == m;
    assert Excess(m) == if m < LIMIT then 0 else 1 + Excess(m / 10);
    assert Excess(LIMIT / 10) == 0;
    if n >= LIMIT {
      assert Excess(n) == 1 + Excess(n / 10);
      if n / 10 >= LIMIT {
        assert Excess(n / 10) == 1 + Excess(n / 10 / 10);
      }
    }
  }

  lemma ZerosAtTheEnd(m: nat, k: nat)
    requires k <= 2 || (k == 3 && m == LIMIT)
    ensures m * 100 % Pow10(k) == 0
  {
    SmallPowers();
    if k == 0 {
    } else if k == 1 {
      assert m * 100 == m * 10 * 10;
    } else if k == 2 {
      assert m * 100 % 100 == 0;
    } else {
      assert LIMIT * 100 % 1000 == 0;
    }
  }

  /** Multiplying a short coefficient by 100 loses nothing: the digits beyond the 38th are the new zeros. */
  lemma TimesHundredFits(d: Dec)
    requires Abs(d.coef) <= LIMIT
    ensures FitsContext(Dec(d.coef * 100, d.exp))
  {
    var m := Abs(d.coef);
    assert Abs(d.coef * 100) == m * 100;
    ExcessOfHundredfold(m);
    ZerosAtTheEnd(m, Excess(m * 100));
  }

  /** A fraction of at most 38 digits times 100 is the same digits two places up. */
  lemma HundredTimesShort(f: Dec)
    requires Abs(f.coef) <= LIMIT
    ensures SameValue(MultiplyByHundred(f), Dec(f.coef, f.exp + 2))
  {
    TimesHundredFits(f);
    FixExactly(Dec(f.coef * 100, f.exp));
    SmallPowers();
    ComparedAt(MultiplyByHundred(f), Dec(f.coef, f.exp + 2), f.exp);
  }

  lemma SameTwoUp(a: Dec, b: Dec)
    ensures SameValue(a, b) <==> SameValue(Dec(a.coef, a.exp + 2), Dec(b.coef, b.exp + 2))
  {
    ComparedAt(a, b, Least(a.exp, b.exp));
  }

  lemma SameTransitive(a: Dec, b: Dec, c: Dec)
    requires SameValue(a, b)
    ensures SameValue(a, c) <==> SameValue(b, c)
  {
    var e := Least(a.exp, Least(b.exp, c.exp));
    ComparedAt(a, b, e);
    ComparedAt(a, c, e);
    ComparedAt(b, c, e);
  }

  /** Five units are accepted, and nothing else. */
  lemma UnitsExactly(value: Dec, unit: string)
    ensures ToWorkingFraction(value, unit).Ok? <==>
              unit == "PERCENT" || unit == "CURRENCY" || unit == "COUNT" || unit == "RATIO" || unit == "ONE"
    ensures ToWorkingFraction(value, unit).Err? ==> ToWorkingFraction(value, unit).error == UnitMismatch
  {
  }

  /** As many digits are cut as are too many, and not one more. */
  lemma {:induction false} ExcessLeast(n: nat)
    ensures n / Pow10(Excess(n)) < LIMIT
    ensures Excess(n) > 0 ==> n / Pow10(Excess(n) - 1) >= LIMIT
  {
    ExcessRemoved(n);
    if n >= LIMIT {
      ExcessLeast(n / 10);
      if n / 10 < LIMIT {
        assert Pow10(0) == 1;
      } else {
        DivideTwice(n, Pow10(Excess(n / 10) - 1));
      }
    }
  }

  /** A result of more than 38 digits is rounded to 38, half away from zero; a shorter one stays. */
  lemma FixRounds(d: Dec)
    ensures RoundsTo(d, Fix(d)) && Fix(d).exp == d.exp + Excess(Abs(d.coef))
    ensures Abs(d.coef) < LIMIT ==> Fix(d) == d
  {
    HalfUpIsNearest(d.coef, Pow10(Excess(Abs(d.coef))));
    assert Pow10(0) == 1;
  }

  /**
    The PERCENT conversion gives the exact hundredth, and multiplying by 100 undoes it,
    exactly for the values of at most 38 significant digits; a value of another unit that
    is accepted stays as it is.
   */
  lemma PercentExactly(d: Dec)
    ensures forall unit :: unit != "PERCENT" && ToWorkingFraction(d, unit).Ok? ==> ToWorkingFraction(d, unit).value == d
    ensures ToWorkingFraction(d, "PERCENT").Ok?
    ensures var f := ToWorkingFraction(d, "PERCENT").value;
            && (SameValue(f, Hundredth(d)) <==> FitsContext(d))
            && (SameValue(MultiplyByHundred(f), d) <==> FitsContext(d))
  {
    var f := DivideByHundred(d);
    FixExactly(Hundredth(d));
    FixedIsShort(Hundredth(d));
    HundredTimesShort(f);
    SameTwoUp(f, Hundredth(d));
    SameTransitive(MultiplyByHundred(f), Dec(f.coef, f.exp + 2), d);
  }
}
