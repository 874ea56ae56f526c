/** Checked minor-unit money: pkg/money. */
module Money {
  import opened Base

  datatype MoneyError = InvalidAmount

  /** Unit price times quantity, refused before it could wrap around int64. */
  function Multiply(unitPrice: int, quantity: nat): Result<int, MoneyError> {
    if unitPrice < 0 || quantity > MAX_INT64 then Err(InvalidAmount)
    else if quantity != 0 && unitPrice > MAX_INT64 / quantity then Err(InvalidAmount)
    else Ok(unitPrice * quantity)
  }

  function Add(left: int, right: int): Result<int, MoneyError> {
    if left < 0 || right < 0 || left > MAX_INT64 - right then Err(InvalidAmount) else Ok(left + right)
  }

  lemma DivisionGuard(a: nat, b: nat, m: nat)
    requires b > 0
    ensures a > m / b <==> a * b > m
  {
    var q := m / b;
    assert q * b <= m < q * b + b;
    if a > q {
      assert a * b >= (q + 1) * b by { ProductMonotone(q + 1, a, b); }
      assert (q + 1) * b == q * b + b;
    } else {
      ProductMonotone(a, q, b);
    }
  }

  lemma ProductMonotone(x: nat, y: nat, b: nat)
    requires x <= y
    ensures x * b <= y * b
  {
    assert (y - x) * b >= 0;
    assert y * b == x * b + (y - x) * b;
  }

  /** The guard is exact: it refuses precisely the products that leave int64. */
  lemma MultiplyExact(unitPrice: int, quantity: nat)
    ensures Multiply(unitPrice, quantity).Ok? <==>
              unitPrice >= 0 && quantity <= MAX_INT64 && unitPrice * quantity <= MAX_INT64
    ensures Multiply(unitPrice, quantity).Ok? ==> 0 <= Multiply(unitPrice, quantity).value == unitPrice * quantity
  {
    if unitPrice >= 0 && quantity > 0 {
      DivisionGuard(unitPrice, quantity, MAX_INT64);
    }
  }

  // ------------------------------------------------------------------ floating point

  /** A float64: the special values and the finite ones, taken as reals. */
  datatype Float = NaN | Infinite(negative: bool) | Finite(x: real)

  /** Unit roundoff of IEEE 754 binary64. */
  const U: real := 1.0 / 9007199254740992.0

  /** The double nearest to the literal 1e-7, exactly. */
  const TOLERANCE: real := 944473296573929.0 / 9444732965739290427392.0

  /** Above this many minor units the round trip is no longer guaranteed. */
  const ROUND_TRIP_BOUND: int := 450359962

  function Abs(x: real): real { if x < 0.0 then -x else x }

  /** `math.Round`: to the nearest integer, halves away from zero. */
  function Round(x: real): int {
    if x < 0.0 then -(-x + 0.5).Floor else (x + 0.5).Floor
  }

  /** y is x to within the unit roundoff. */
  predicate Near(y: real, x: real) { Abs(y - x) <= U * Abs(x) }

  /** A rounding function whose every result is within relative error U. */
  ghost predicate Rounding(fl: real -> real) {
    forall x: real :: Near(fl(x), x)
  }

  /**
   Price to minor units, 100 to the unit. `fl` rounds each float operation; comparisons, `math.Round` and
   `math.Abs` are exact.
   */
  function ToMinorUnits(fl: real -> real, amount: Float): Result<int, MoneyError> {
    match amount
    case NaN => Err(InvalidAmount)
    case Infinite(_) => Err(InvalidAmount)
    case Finite(x) =>
      if x < 0.0 then Err(InvalidAmount)
      else
        var scaled := fl(x * 100.0);
        if scaled >= 9223372036854775808.0 then Err(InvalidAmount)
        else
          var rounded := Round(scaled);
          if Abs(fl(scaled - rounded as real)) > TOLERANCE then Err(InvalidAmount) else Ok(rounded)
  }

  /** Minor units to price; the conversion of the integer itself is exact below 2^53. */
  function FromMinorUnits(fl: real -> real, amount: int): Float {
    Finite(fl(amount as real / 100.0))
  }

  ghost predicate RoundTrips(fl: real -> real, n: int) {
    ToMinorUnits(fl, FromMinorUnits(fl, n)) == Ok(n)
  }

  lemma TwoRoundings(n: nat, amount: real, scaled: real)
    requires Near(amount, n as real / 100.0) && Near(scaled, amount * 100.0)
    ensures amount >= 0.0 && Abs(scaled - n as real) <= n as real * (2.0 * U + U * U)
  {
  }

  lemma ErrorWithinTolerance(n: nat, d: real, e: real)
    requires n <= ROUND_TRIP_BOUND
    requires Abs(d) <= n as real * (2.0 * U + U * U) && Near(e, d)
    ensures Abs(d) < 0.5 && Abs(e) <= TOLERANCE
  {
    assert n as real <= 450359962.0;
    assert n as real * (2.0 * U + U * U) <= 450359962.0 * (2.0 * U + U * U);
    assert Abs(e) <= (1.0 + U) * Abs(d);
  }

  lemma RoundNear(x: real, n: nat)
    requires Abs(x - n as real) < 0.5
    ensures Round(x) == n
  {
    if x < 0.0 {
      assert n == 0;
    }
  }

  /** Under the error model the round trip survives for every amount up to the bound. */
  lemma RoundTripBelowBound(fl: real -> real, n: nat)
    requires Rounding(fl) && n <= ROUND_TRIP_BOUND
    ensures RoundTrips(fl, n)
  {
    var amount := fl(n as real / 100.0);
    var scaled := fl(amount * 100.0);
    var d := scaled - n as real;
    assert Near(fl(n as real / 100.0), n as real / 100.0);
    assert Near(fl(amount * 100.0), amount * 100.0);
    assert Near(fl(d), d);
    TwoRoundings(n, amount, scaled);
    ErrorWithinTolerance(n, d, fl(d));
    RoundNear(scaled, n);
    SmallFits(scaled, n);
    Assemble(fl, n, amount, scaled);
  }

  lemma Assemble(fl: real -> real, n: nat, amount: real, scaled: real)
    requires amount == fl(n as real / 100.0) && scaled == fl(amount * 100.0)
    requires 0.0 <= amount && scaled < 9223372036854775808.0 && Round(scaled) == n
        && Abs(fl(scaled - n as real)) <= TOLERANCE
    ensures RoundTrips(fl, n)
  {
  }

  lemma SmallFits(x: real, n: nat)
    requires n <= ROUND_TRIP_BOUND && Abs(x - n as real) < 0.5
    ensures x < 9223372036854775808.0
  {
  }

  /** Rounds every operation up by the full unit roundoff. */
  function Upward(x: real): real { x + U * x }

  lemma RoundTripAboveBound(n: int)
    requires n > ROUND_TRIP_BOUND
    ensures Rounding(Upward) && !RoundTrips(Upward, n)
  {
    var amount := Upward(n as real / 100.0);
    var scaled := Upward(amount * 100.0);
    assert n as real >= 450359963.0;
    assert scaled - n as real >= n as real * (2.0 * U);
    if Round(scaled) == n {
      var d := scaled - n as real;
      assert d == n as real * (2.0 * U + U * U);
      assert Abs(Upward(d)) > TOLERANCE;
    }
  }

  function TwoTo(k: nat): int { if k == 0 then 1 else 2 * TwoTo(k - 1) }

  lemma {:induction false} TwoToAdds(j: nat, k: nat)
    ensures TwoTo(j + k) == TwoTo(j) * TwoTo(k)
  {
    if j > 0 {
      TwoToAdds(j - 1, k);
      assert TwoTo(j) * TwoTo(k) == 2 * (TwoTo(j - 1) * TwoTo(k));
    }
  }

  lemma PowersUsed()
    ensures TwoTo(23) == 8388608 && TwoTo(29) == 536870912
    ensures TwoTo(52) == 4503599627370496 && TwoTo(53) == 9007199254740992
  {
    assert TwoTo(8) == 256;
    TwoToAdds(8, 8);
    TwoToAdds(16, 7);
    assert TwoTo(7) == 128 && TwoTo(6) == 64;
    TwoToAdds(23, 6);
    TwoToAdds(29, 23);
  }

  /**
   y is the float64 nearest to x, with no tie: y is a significand of exactly 53 bits over 2^k, and x is
   less than half a unit of the last place away.
   */
  predicate NearestFloat(y: real, x: real, significand: int, k: nat) {
    && TwoTo(52) <= significand < TwoTo(53)
    && y * TwoTo(k) as real == significand as real
    && Abs(y - x) * TwoTo(k) as real < 0.5
  }

  /** An amount of 8,388,608.03; its two roundings to the nearest float64 lose it. */
  const LOST: int := 838860803
  const LOST_PRICE: real := 4503599643476623.0 / 536870912.0
  const LOST_SCALED: real := 7036874442932223.0 / 8388608.0

  lemma LostRoundings()
    ensures NearestFloat(LOST_PRICE, LOST as real / 100.0, 4503599643476623, 29)
    ensures NearestFloat(LOST_SCALED, LOST_PRICE * 100.0, 7036874442932223, 23)
    ensures LOST_SCALED - LOST as real == -1.0 / 8388608.0
  {
    PowersUsed();
  }

  /**
   The loss is real: with every operation rounded to the nearest float64, as the hardware does, the price
   of 838,860,803 minor units is refused on the way back. The last difference is itself a float64.
   */
  lemma NearestRoundingLoses(fl: real -> real)
    requires fl(LOST as real / 100.0) == LOST_PRICE
    requires fl(LOST_PRICE * 100.0) == LOST_SCALED
    requires fl(LOST_SCALED - LOST as real) == LOST_SCALED - LOST as real
    ensures ToMinorUnits(fl, FromMinorUnits(fl, LOST)) == Err(InvalidAmount)
  {
    LostRoundings();
    var d := LOST_SCALED - LOST as real;
    RoundNear(LOST_SCALED, LOST);
    assert Abs(fl(d)) > TOLERANCE;
  }

  /**
   The exact range on which converting to a price and back is safe: every rounding function within
   the error model restores n if and only if n is at most 450,359,962 minor units.
   */
  lemma RoundTripExactly(n: nat)
    ensures (forall fl: real -> real | Rounding(fl) :: RoundTrips(fl, n)) <==> n <= ROUND_TRIP_BOUND
  {
    if n <= ROUND_TRIP_BOUND {
      forall fl: real -> real | Rounding(fl) ensures RoundTrips(fl, n) { RoundTripBelowBound(fl, n); }
    } else {
      RoundTripAboveBound(n);
      var fl: real -> real := Upward;
      assert Rounding(fl) && !RoundTrips(fl, n);
    }
  }

  /**
   Whatever is accepted came from a finite price, not negative, within the tolerance of a whole number of
   minor units; NaN and the infinities are refused.
   */
  lemma AcceptedIsNearWhole(fl: real -> real, amount: Float)
    requires Rounding(fl) && ToMinorUnits(fl, amount).Ok?
    ensures amount.Finite? && amount.x >= 0.0
    ensures var n := ToMinorUnits(fl, amount).value; var x := amount.x;
            0 <= n <= MAX_INT64 + 1 && Abs(100.0 * x - n as real) <= 100.0 * x * U + TOLERANCE * (1.0 + 2.0 * U)
  {
    var x := amount.x;
    var scaled := fl(x * 100.0);
    var d := scaled - Round(scaled) as real;
    assert Near(fl(x * 100.0), x * 100.0);
    assert Near(fl(d), d);
    NearWhole(x * 100.0, scaled, Round(scaled), fl(d));
  }

  lemma NearWhole(p: real, scaled: real, n: int, e: real)
    requires p >= 0.0 && Near(scaled, p) && n == Round(scaled) && scaled < 9223372036854775808.0
    requires Near(e, scaled - n as real) && Abs(e) <= TOLERANCE
    ensures 0 <= n <= MAX_INT64 + 1 && Abs(p - n as real) <= p * U + TOLERANCE * (1.0 + 2.0 * U)
  {
    assert scaled >= 0.0;
    assert Abs(scaled - n as real) <= 0.5;
  }
}
