/** The width of a rating card's progress bar, and the rounding the win
    rates use. */
module Progress {
  import opened Wrappers

  /** The rating drawn as an empty bar. */
  const BarLow: int := 800
  /** The rating drawn as a full bar. */
  const BarHigh: int := 2800

  function Min(a: real, b: real): real {
    if a <= b then a else b
  }

  /** `Math.min(((v - 800) / (2800 - 800)) * 100, 100)`: capped at 100 but
      not floored at 0. */
  function Percent(rating: int): (p: real)
    ensures p <= 100.0
    ensures rating <= BarHigh ==> p == (rating - BarLow) as real / 20.0
    ensures rating >= BarHigh ==> p == 100.0
  {
    Min(((rating - BarLow) as real / (BarHigh - BarLow) as real) * 100.0, 100.0)
  }

  /** The bar of a Lichess row whose rating is undefined: `undefined - 800`
      is NaN, modelled as `None`. */
  function BarWidth(value: Option<int>): (w: Option<real>)
    ensures w.Some? <==> value.Some?
    ensures value.Some? ==> w == Some(Percent(value.value)) && w.value <= 100.0
  {
    match value
    case None => None
    case Some(v) => Some(Percent(v))
  }

  lemma PercentAnchors()
    ensures Percent(800) == 0.0
    ensures Percent(1800) == 50.0
    ensures Percent(2800) == 100.0
    ensures Percent(3500) == 100.0
    ensures Percent(200) == -30.0
  {
  }

  /** Ratings below 800 give a negative width: nothing clamps from below. */
  lemma PercentNegativeBelowLow(rating: int)
    requires rating < BarLow
    ensures Percent(rating) < 0.0
  {
  }

  lemma PercentMonotone(a: int, b: int)
    requires a <= b
    ensures Percent(a) <= Percent(b)
  {
  }

  /** `Math.round`: the nearest integer, halves rounded up. */
  function Round(x: real): (n: int)
    ensures n as real <= x + 0.5 < n as real + 1.0
  {
    (x + 0.5).Floor
  }

  /** Only one integer satisfies the rounding bracket. */
  lemma RoundUnique(x: real, n: int)
    requires n as real <= x + 0.5 < n as real + 1.0
    ensures Round(x) == n
  {
    var m := Round(x);
    assert m as real < n as real + 1.0 && n as real < m as real + 1.0;
  }

  /** Cancelling a positive factor keeps a non-strict comparison. */
  lemma CancelFactor(a: real, b: real, k: real)
    requires k > 0.0 && a * k <= b * k
    ensures a <= b
  {
  }

  /** Cancelling a positive factor keeps a strict comparison. */
  lemma CancelFactorStrict(a: real, b: real, k: real)
    requires k > 0.0 && a * k < b * k
    ensures a < b
  {
  }

  /** The quantity rounded, scaled by twice the whole, is an integer. */
  lemma ScaledShare(part: int, whole: int)
    requires whole > 0
    ensures ((part as real / whole as real) * 100.0 + 0.5) * (2.0 * whole as real)
            == (200 * part + whole) as real
  {
    var w := whole as real;
    assert (part as real / w) * w == part as real;
  }

  /** For a positive whole the rounded share is an integer quotient. */
  lemma RoundShareInteger(part: int, whole: int)
    requires whole > 0
    ensures Round((part as real / whole as real) * 100.0) == (200 * part + whole) / (2 * whole)
  {
    var d := 2 * whole;
    var q := (200 * part + whole) / d;
    var y := (part as real / whole as real) * 100.0 + 0.5;
    ScaledShare(part, whole);
    assert y * d as real == (200 * part + whole) as real;
    assert q * d <= 200 * part + whole < (q + 1) * d;
    assert (q * d) as real == q as real * d as real;
    assert ((q + 1) * d) as real == (q as real + 1.0) * d as real;
    CancelFactor(q as real, y, d as real);
    CancelFactorStrict(y, q as real + 1.0, d as real);
    RoundUnique(y - 0.5, q);
  }

  /** A share of a whole rounds to a percentage between 0 and 100. */
  lemma RoundShareBounds(part: int, whole: int)
    requires whole > 0
    ensures 0 <= part <= whole ==> 0 <= Round((part as real / whole as real) * 100.0) <= 100
  {
    if 0 <= part <= whole {
      var w := whole as real;
      var y := part as real / w;
      assert y * w == part as real;
      CancelFactor(0.0, y, w);
      CancelFactor(y, 1.0, w);
      var n := Round(y * 100.0);
      assert n as real <= y * 100.0 + 0.5 < n as real + 1.0;
    }
  }

  /** `Math.round((part / whole) * 100)`: for a positive whole, the integer
      quotient (200 * part + whole) / (2 * whole), and between 0 and 100 when
      the part lies between 0 and the whole. */
  function RoundedPercent(part: int, whole: int): (p: int)
    requires whole != 0
    ensures whole > 0 ==> p == (200 * part + whole) / (2 * whole)
    ensures 0 <= part <= whole ==> 0 <= p <= 100
  {
    if whole > 0 then
      RoundShareInteger(part, whole);
      RoundShareBounds(part, whole);
      Round((part as real / whole as real) * 100.0)
    else
      Round((part as real / whole as real) * 100.0)
  }
}
