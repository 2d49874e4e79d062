/**
 * Fractional odds received in a push update, and the decimal and American forms
 * derived from them. Arithmetic is on exact reals (the Go code uses float64);
 * `ParseFloat` is a parameter standing for `strconv.ParseFloat`.
 */
module OddsForms {
  import opened Wrappers
  import opened Strings
  import opened Domain

  /** `math.Round`: the nearest integer, halves rounded away from zero. */
  function Round(x: real): (r: int)
    ensures x >= 0.0 ==> x - 0.5 < r as real <= x + 0.5
    ensures x < 0.0 ==> x - 0.5 <= r as real < x + 0.5
  {
    if x >= 0.0 then (x + 0.5).Floor else -((-x + 0.5).Floor)
  }

  /** Decimal odds: the ratio cut down to hundredths, plus the returned stake (the window and whole hundredths pin the value). */
  function DecimalOdds(ratio: real): (d: real)
    ensures ratio + 0.99 < d <= ratio + 1.0
    ensures ((d - 1.0) * 100.0).Floor as real == (d - 1.0) * 100.0
  {
    ((ratio * 100.0).Floor as real) / 100.0 + 1.0
  }

  /**
   * American odds as a number, for a non-zero ratio: above evens the rounded gain
   * on a stake of 100 (at least +100); at or below evens minus the rounded stake
   * needed to gain 100 (at most -100 for a positive ratio).
   */
  function AmericanValue(ratio: real): (v: int)
    requires ratio != 0.0
    ensures ratio > 1.0 ==> 100 <= v && ratio * 100.0 - 0.5 < v as real <= ratio * 100.0 + 0.5
    ensures 0.0 < ratio <= 1.0 ==> v <= -100 && -100.0 / ratio - 0.5 <= v as real < -100.0 / ratio + 0.5
    ensures ratio < 0.0 ==> 0 <= v && -100.0 / ratio - 0.5 < v as real <= -100.0 / ratio + 0.5
  {
    if ratio > 1.0 then Round(ratio * 100.0)
    else
      StakeBound(ratio);
      Round(-100.0 / ratio)
  }

  /** The stake needed to gain 100 at a ratio of at most evens is at least 100; at a negative ratio the quotient is positive. */
  lemma StakeBound(ratio: real)
    requires ratio != 0.0 && ratio <= 1.0
    ensures ratio > 0.0 ==> -100.0 / ratio <= -100.0
    ensures ratio < 0.0 ==> -100.0 / ratio > 0.0
  {
    var q := 100.0 / ratio;
    assert q * ratio == 100.0;
    if ratio > 0.0 {
      assert -100.0 / ratio == -q;
      assert q >= 100.0;
    } else {
      assert -100.0 / ratio == -q;
    }
  }

  /** American odds as text: `fmt.Sprint` of the rounded value, minus-signed exactly for a positive ratio at most evens. */
  function AmericanOdds(ratio: real): (a: string)
    requires ratio != 0.0
    ensures |a| > 0
    ensures ratio > 0.0 ==> (a[0] == '-' <==> ratio <= 1.0)
    ensures ratio < 0.0 ==> a[0] != '-'
  {
    IntToString(AmericanValue(ratio))
  }

  /** `fmt.Sprint` of the infinities `-100 / 0` produces. */
  const NegativeInfinity := "-Inf"
  const PositiveInfinity := "+Inf"

  datatype OddsError = UnparsableOdds(text: string)

  /** `getFractionalOdds`: the numerator parsed first, then the denominator; the first failure is reported. */
  function FractionalOdds(numerator: string, denominator: string, parseFloat: string -> Option<real>): (r: Result<(real, real), OddsError>)
    ensures parseFloat(numerator).None? ==> r == Err(UnparsableOdds(numerator))
    ensures parseFloat(numerator).Some? && parseFloat(denominator).None? ==> r == Err(UnparsableOdds(denominator))
    ensures r.Ok? <==> parseFloat(numerator).Some? && parseFloat(denominator).Some?
    ensures r.Ok? ==> r.value == (parseFloat(numerator).value, parseFloat(denominator).value)
  {
    match parseFloat(numerator)
    case None => Err(UnparsableOdds(numerator))
    case Some(n) =>
      match parseFloat(denominator)
      case None => Err(UnparsableOdds(denominator))
      case Some(d) => Ok((n, d))
  }

  /**
   * `updateOdds`: the received fraction replaces the stored one unconditionally;
   * when both halves parse, the decimal and American forms are recomputed from
   * their ratio. A zero numerator gives decimal 1 and an infinite American value.
   * A zero denominator (an infinite or undefined ratio) leaves the derived forms
   * as they were.
   */
  function UpdateOdds(odds: Odds, numerator: string, denominator: string, parseFloat: string -> Option<real>): (r: (Odds, Option<OddsError>))
    ensures r.0.numerator == numerator && r.0.denominator == denominator && r.0.isFixed == odds.isFixed
    ensures r.1.Some? <==> FractionalOdds(numerator, denominator, parseFloat).Err?
    ensures r.1.Some? ==> r.0.decimal == odds.decimal && r.0.american == odds.american
    ensures var f := FractionalOdds(numerator, denominator, parseFloat);
      f.Ok? && f.value.1 == 0.0 ==> r.0.decimal == odds.decimal && r.0.american == odds.american
    ensures var f := FractionalOdds(numerator, denominator, parseFloat);
      f.Ok? && f.value.1 != 0.0 && f.value.0 == 0.0 ==>
        r.0.decimal == 1.0 && r.0.american == (if f.value.1 > 0.0 then NegativeInfinity else PositiveInfinity)
    ensures var f := FractionalOdds(numerator, denominator, parseFloat);
      f.Ok? && f.value.1 != 0.0 && f.value.0 != 0.0 ==>
        r.0.decimal == DecimalOdds(f.value.0 / f.value.1) && r.0.american == AmericanOdds(f.value.0 / f.value.1)
  {
    var fraction := odds.(numerator := numerator, denominator := denominator);
    match FractionalOdds(numerator, denominator, parseFloat)
    case Err(e) => (fraction, Some(e))
    case Ok((n, d)) =>
      if d == 0.0 then (fraction, None)
      else if n == 0.0 then (fraction.(decimal := 1.0, american := if d > 0.0 then NegativeInfinity else PositiveInfinity), None)
      else (fraction.(decimal := DecimalOdds(n / d), american := AmericanOdds(n / d)), None)
  }

  // ---- what the derived forms mean ----

  /** Applying the same fraction twice is the same as applying it once. */
  lemma UpdateOddsIdempotent(odds: Odds, numerator: string, denominator: string, parseFloat: string -> Option<real>)
    ensures var once := UpdateOdds(odds, numerator, denominator, parseFloat);
      UpdateOdds(once.0, numerator, denominator, parseFloat) == once
  {
  }

  /**
   * With a parsable fraction of non-zero parts the stored forms are fixed by the
   * ratio: decimal is the one whole-hundredth value within a hundredth below
   * `ratio + 1`; American is the rendering of the integer within half a unit of
   * `ratio * 100` above evens and of `-100 / ratio` otherwise, minus-signed
   * exactly when a positive ratio is at most evens.
   */
  lemma UpdateOddsFollowsRatio(odds: Odds, numerator: string, denominator: string, parseFloat: string -> Option<real>)
    requires parseFloat(numerator).Some? && parseFloat(denominator).Some?
    requires parseFloat(numerator).value != 0.0 && parseFloat(denominator).value != 0.0
    ensures var r := UpdateOdds(odds, numerator, denominator, parseFloat);
      var ratio := parseFloat(numerator).value / parseFloat(denominator).value;
      && r.1.None?
      && ratio + 0.99 < r.0.decimal <= ratio + 1.0
      && ((r.0.decimal - 1.0) * 100.0).Floor as real == (r.0.decimal - 1.0) * 100.0
      && r.0.american == IntToString(AmericanValue(ratio))
      && (ratio > 1.0 ==> ratio * 100.0 - 0.5 < AmericanValue(ratio) as real <= ratio * 100.0 + 0.5)
      && (ratio <= 1.0 ==> -100.0 / ratio - 0.5 <= AmericanValue(ratio) as real <= -100.0 / ratio + 0.5)
      && (ratio > 0.0 ==> (r.0.american[0] == '-' <==> ratio <= 1.0))
  {
    var n := parseFloat(numerator).value;
    var d := parseFloat(denominator).value;
    assert n / d != 0.0 by {
      if n / d == 0.0 {
        assert n == n / d * d;
      }
    }
  }

  /** A favourable ratio has American odds of at least +100, the rounded gain on a stake of 100. */
  lemma FavourableAmerican(ratio: real)
    requires ratio > 1.0
    ensures AmericanOdds(ratio)[0] != '-'
    ensures Round(ratio * 100.0) >= 100
    ensures -0.5 <= Round(ratio * 100.0) as real - ratio * 100.0 <= 0.5
  {
  }

  /** A positive ratio of at most evens has American odds of at most -100, the rounded stake needed to win 100. */
  lemma UnfavourableAmerican(ratio: real)
    requires 0.0 < ratio <= 1.0
    ensures AmericanOdds(ratio)[0] == '-'
    ensures Round(-100.0 / ratio) <= -100
    ensures -0.5 <= Round(-100.0 / ratio) as real + 100.0 / ratio <= 0.5
  {
    assert -100.0 / ratio <= -100.0 by {
      assert 100.0 / ratio >= 100.0 by {
        assert 100.0 / ratio * ratio == 100.0;
      }
    }
  }

  /** Decimal odds are exact hundredths, and at least 2 exactly when the ratio is at least evens. */
  lemma DecimalIsHundredths(ratio: real)
    ensures ((DecimalOdds(ratio) - 1.0) * 100.0).Floor as real == (DecimalOdds(ratio) - 1.0) * 100.0
    ensures ratio >= 1.0 <==> DecimalOdds(ratio) >= 2.0
  {
    var k := (ratio * 100.0).Floor;
    assert (DecimalOdds(ratio) - 1.0) * 100.0 == k as real;
  }

  /** The figures quoted for the feed: 27/10, 2/9 and 83/100. */
  lemma Examples()
    ensures DecimalOdds(27.0 / 10.0) == 3.7 && AmericanOdds(27.0 / 10.0) == "270"
    ensures DecimalOdds(2.0 / 9.0) == 1.22 && AmericanOdds(2.0 / 9.0) == "-450"
    ensures DecimalOdds(83.0 / 100.0) == 1.83 && AmericanOdds(83.0 / 100.0) == "-120"
  {
    assert (27.0 / 10.0 * 100.0).Floor == 270;
    assert Round(27.0 / 10.0 * 100.0) == 270;
    assert NatToString(270) == NatToString(27) + [DigitChar(0)];
    assert (2.0 / 9.0 * 100.0).Floor == 22;
    assert -100.0 / (2.0 / 9.0) == -450.0;
    assert Round(-450.0) == -450;
    assert NatToString(450) == NatToString(45) + [DigitChar(0)];
    assert (83.0 / 100.0 * 100.0).Floor == 83;
    assert Round(-100.0 / (83.0 / 100.0)) == -120;
    assert NatToString(120) == NatToString(12) + [DigitChar(0)];
  }
}
