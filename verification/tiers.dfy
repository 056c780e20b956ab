/** The skill tier shown under every rating, and the legend printed below
    the two platform cards. */
module Tiers {
  import opened Wrappers

  /** `Master` appears only in the legend; the classifier never returns it. */
  datatype Tier = Beginner | Intermediate | Advanced | Expert | Master

  /** Position of a tier on the skill scale. */
  function Rank(t: Tier): nat {
    match t
    case Beginner => 0
    case Intermediate => 1
    case Advanced => 2
    case Expert => 3
    case Master => 4
  }

  /** The half-open rating interval [lo, hi); a missing bound is unbounded. */
  datatype Band = Band(lo: Option<int>, hi: Option<int>)

  /** The band that holds no rating at all: nothing is both >= 0 and < 0. */
  const NoRatings: Band := Band(Some(0), Some(0))

  predicate InBand(rating: int, b: Band) {
    && (b.lo.None? || b.lo.value <= rating)
    && (b.hi.None? || rating < b.hi.value)
  }

  /** The ratings each tier covers on the rating cards. Master covers none. */
  function CardBand(t: Tier): Band {
    match t
    case Beginner => Band(None, Some(1200))
    case Intermediate => Band(Some(1200), Some(1600))
    case Advanced => Band(Some(1600), Some(2000))
    case Expert => Band(Some(2000), None)
    case Master => NoRatings
  }

  /** The ratings each tier covers according to the ELO legend. */
  function LegendBand(t: Tier): Band {
    match t
    case Beginner => Band(None, Some(1200))
    case Intermediate => Band(Some(1200), Some(1600))
    case Advanced => Band(Some(1600), Some(2000))
    case Expert => Band(Some(2000), Some(2200))
    case Master => Band(Some(2200), None)
  }

  /** The threshold chain of a rating card: the first of 2000, 1600, 1200
      that the rating reaches picks Expert, Advanced, Intermediate. */
  function Classify(rating: int): (t: Tier)
    ensures InBand(rating, CardBand(t))
    ensures t != Master
  {
    if rating >= 2000 then Expert
    else if rating >= 1600 then Advanced
    else if rating >= 1200 then Intermediate
    else Beginner
  }

  /** A Lichess row may carry an undefined rating. Every comparison with
      `undefined` is false, so such a row falls through to Beginner. */
  function ClassifyValue(value: Option<int>): (t: Tier)
    ensures value.None? ==> t == Beginner
    ensures value.Some? ==> InBand(value.value, CardBand(t))
  {
    match value
    case None => Beginner
    case Some(v) => Classify(v)
  }

  /** No rating lies in two card bands. */
  lemma CardBandsDisjoint(rating: int, t1: Tier, t2: Tier)
    requires InBand(rating, CardBand(t1)) && InBand(rating, CardBand(t2))
    ensures t1 == t2
  {
  }

  /** The classifier picks a tier exactly when the rating lies in its band. */
  lemma ClassifyIff(rating: int, t: Tier)
    ensures Classify(rating) == t <==> InBand(rating, CardBand(t))
  {
    if InBand(rating, CardBand(t)) {
      CardBandsDisjoint(rating, t, Classify(rating));
    }
  }

  /** The boundary ratings land on the side the thresholds promise. */
  lemma ClassifyBoundaries()
    ensures Classify(2000) == Expert && Classify(1999) == Advanced
    ensures Classify(1600) == Advanced && Classify(1599) == Intermediate
    ensures Classify(1200) == Intermediate && Classify(1199) == Beginner
  {
  }

  /** A higher rating never gets a lower tier. */
  lemma ClassifyMonotone(a: int, b: int)
    requires a <= b
    ensures Rank(Classify(a)) <= Rank(Classify(b))
  {
  }

  /** Below 2200 the legend describes the tier a card shows; from 2200 on the
      legend says Master while the card still says Expert. */
  lemma LegendAgreesBelowMaster(rating: int)
    ensures rating < 2200 ==> InBand(rating, LegendBand(Classify(rating)))
    ensures rating >= 2200 ==>
      Classify(rating) == Expert && !InBand(rating, LegendBand(Classify(rating)))
      && InBand(rating, LegendBand(Master))
  {
  }
}
