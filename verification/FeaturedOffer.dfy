/** The featured offer: a weighted score with two roundings, and the ranking by it.

    Prices count units of 0.0001, scores units of 0.00000001; stock and rating scores are fractions with
    a common denominator. */
module FeaturedOffer {
  import opened Money
  import opened Outcomes

  const POINTS := 100000000

  /** `delivery` is in days; stock and rating are scores of at most 100 times the denominator. */
  datatype Offer = Offer(id: int, landed: int, days: int, stock: int, rating: int)

  function Max0(x: int): int { if x < 0 then 0 else x }

  /** Ten points less per day; no promise, and a promise of zero days, count as seven. */
  function DeliveryScore(days: int): int { Max0(100 - (if days == 0 then 7 else days) * 10) }

  /** 100 for the cheapest and 0 for the dearest offer, rounded half to even. */
  function PriceScore(v: int, low: int, high: int): int
    requires low <= high
  {
    if low == high then 100 * POINTS else RoundHalfEven((high - v) * (100 * POINTS), high - low)
  }

  /** The score, as a numerator over 100 times the denominator. */
  function Weighted(price: int, days: int, stock: int, rating: int, denominator: int): int {
    50 * (price * denominator) + POINTS * (25 * (DeliveryScore(days) * denominator) + 10 * stock + 15 * rating)
  }

  function Score(o: Offer, low: int, high: int, denominator: int): int
    requires low <= high && denominator > 0
  {
    RoundHalfEven(Weighted(PriceScore(o.landed, low, high), o.days, o.stock, o.rating, denominator), 100 * denominator)
  }

  predicate WellFormed(o: Offer, low: int, high: int, denominator: int) {
    low <= o.landed <= high && 0 <= o.days && 0 <= o.stock <= 100 * denominator && 0 <= o.rating <= 100 * denominator
  }

  // ---------------------------------------------------------------- rounding keeps order

  /** A nearest integer is at most k when the value is at most k. */
  lemma RoundedAtMost(num: int, den: int, k: int)
    requires den > 0 && num <= k * den
    ensures RoundHalfEven(num, den) <= k
  {
    HalfEvenIsNearest(num, den);
    var r := RoundHalfEven(num, den);
    assert (k + 1) * den == k * den + den;
    hide RoundHalfEven;
    if r > k { MulOrder(k + 1, r, den); }
  }

  lemma MulOrder(a: int, b: int, c: int)
    requires a <= b && c >= 0
    ensures a * c <= b * c
  {
  }

  lemma DivOrder(a: int, b: int, den: int)
    requires den > 0 && a <= b
    ensures a / den <= b / den
    ensures a / den == b / den ==> a % den <= b % den
  {
    var p, q := a / den, b / den;
    DivBounds(a, den);
    DivBounds(b, den);
    assert (q + 1) * den == q * den + den;
    if p > q { MulOrder(q + 1, p, den); }
  }

  lemma RoundingIsMonotone(a: int, b: int, den: int)
    requires den > 0 && a <= b
    ensures RoundHalfEven(a, den) <= RoundHalfEven(b, den)
  {
    DivOrder(a, b, den);
    RoundStep(a, den);
    RoundStep(b, den);
    if a / den < b / den { hide RoundHalfEven; }
  }

  lemma RoundStep(num: int, den: int)
    requires den > 0
    ensures num / den <= RoundHalfEven(num, den) <= num / den + 1
  {
  }

  lemma PriceScoreRange(v: int, low: int, high: int)
    requires low <= v <= high
    ensures 0 <= PriceScore(v, low, high) <= 100 * POINTS
    ensures v == low ==> PriceScore(v, low, high) == 100 * POINTS
  {
    if low < high {
      var num, den := (high - v) * (100 * POINTS), high - low;
      MulOrder(high - v, den, 100 * POINTS);
      HalfEvenIsNearest(num, den);
      assert den * (100 * POINTS) == (100 * POINTS) * den;
      RoundedAtMost(num, den, 100 * POINTS);
      if v == low { WholeRounds(100 * POINTS, den); }
    }
  }

  lemma WholeRounds(k: int, den: int)
    requires den > 0
    ensures RoundHalfEven(k * den, den) == k
  {
    assert (k * den) / den == k && (k * den) % den == 0 by { DivMod(k, den); }
  }

  lemma DivMod(k: int, den: int)
    requires den > 0
    ensures (k * den) / den == k && (k * den) % den == 0
  {
    DivBounds(k * den, den);
    var q := (k * den) / den;
    if q < k { MulOrder(q + 1, k, den); }
    if q > k { MulOrder(k + 1, q, den); }
  }

  lemma PriceScoreOrder(v: int, w: int, low: int, high: int)
    requires low <= v <= w <= high
    ensures PriceScore(v, low, high) >= PriceScore(w, low, high)
  {
    if low < high {
      MulOrder(high - w, high - v, 100 * POINTS);
      RoundingIsMonotone((high - w) * (100 * POINTS), (high - v) * (100 * POINTS), high - low);
    }
  }

  /** Main result: scores lie between 0 and 100. */
  lemma ScoreRange(o: Offer, low: int, high: int, denominator: int)
    requires denominator > 0 && WellFormed(o, low, high, denominator)
    ensures 0 <= Score(o, low, high, denominator) <= 100 * POINTS
  {
    var price := PriceScore(o.landed, low, high);
    PriceScoreRange(o.landed, low, high);
    MulOrder(0, price, denominator);
    MulOrder(price, 100 * POINTS, denominator);
    MulOrder(0, DeliveryScore(o.days), denominator);
    MulOrder(DeliveryScore(o.days), 100, denominator);
    var num := Weighted(price, o.days, o.stock, o.rating, denominator);
    assert 0 <= num <= 100 * POINTS * (100 * denominator) by {
      assert price * denominator <= 100 * POINTS * denominator;
    }
    HalfEvenIsNearest(num, 100 * denominator);
    RoundedAtMost(num, 100 * denominator, 100 * POINTS);
  }

  /** Main result: the score is a nearest one to half the price score, a quarter of what is left of 100 after ten
      points a day, a tenth of the stock and 15 hundredths of the rating; the price score is a nearest one to the
      offer's place between the dearest and the cheapest. */
  lemma ScoreMeans(o: Offer, low: int, high: int, denominator: int) returns (price: int)
    requires denominator > 0 && low <= high
    ensures low == high ==> price == 100 * POINTS
    ensures low < high ==>
              -(high - low) <= 2 * (price * (high - low) - (high - o.landed) * (100 * POINTS)) <= high - low
    ensures var days := if o.days == 0 then 30 else if o.days <= 10 then 100 - 10 * o.days else 0;
            var exact := 50 * (price * denominator)
                         + POINTS * (25 * (days * denominator) + 10 * o.stock + 15 * o.rating);
            -(100 * denominator) <= 2 * (Score(o, low, high, denominator) * (100 * denominator) - exact)
                                 <= 100 * denominator
  {
    price := PriceScore(o.landed, low, high);
    if low < high { HalfEvenIsNearest((high - o.landed) * (100 * POINTS), high - low); }
    HalfEvenIsNearest(Weighted(price, o.days, o.stock, o.rating, denominator), 100 * denominator);
    hide RoundHalfEven;
  }

  /** An offer at least as good as another in every respect. Zero days count as seven. */
  predicate AtLeastAsGood(a: Offer, b: Offer) {
    a.landed <= b.landed && DeliveryScore(a.days) >= DeliveryScore(b.days) && a.stock >= b.stock && a.rating >= b.rating
  }

  /** Main result: it never scores lower, through both roundings. */
  lemma BetterNeverScoresLower(a: Offer, b: Offer, low: int, high: int, denominator: int)
    requires denominator > 0 && WellFormed(a, low, high, denominator) && WellFormed(b, low, high, denominator)
    requires AtLeastAsGood(a, b)
    ensures Score(a, low, high, denominator) >= Score(b, low, high, denominator)
  {
    var p, q := PriceScore(a.landed, low, high), PriceScore(b.landed, low, high);
    PriceScoreOrder(a.landed, b.landed, low, high);
    MulOrder(q, p, denominator);
    MulOrder(DeliveryScore(b.days), DeliveryScore(a.days), denominator);
    RoundingIsMonotone(Weighted(q, b.days, b.stock, b.rating, denominator),
                       Weighted(p, a.days, a.stock, a.rating, denominator), 100 * denominator);
  }

  /** A faster delivery scores at least as much, except that a promise of zero days counts as seven: it
      scores below every promise of one to six days. */
  lemma FasterScoresMoreIff(a: int, b: int)
    requires 0 <= a < b
    ensures DeliveryScore(a) >= DeliveryScore(b) <==> !(a == 0 && b < 7)
  {
  }

  // ---------------------------------------------------------------- the ranking

  /** Ahead in the ranking: a higher score, or the same score and a smaller id. */
  predicate Ahead(a: (int, int), b: (int, int)) { a.0 > b.0 || (a.0 == b.0 && a.1 < b.1) }

  /** The offer of the first place: the loop that keeps the best so far finds what sorting puts first. */
  method Featured(offers: seq<Offer>, denominator: int) returns (k: nat, low: int, high: int)
    requires offers != [] && denominator > 0
    requires forall i, j :: 0 <= i < j < |offers| ==> offers[i].id != offers[j].id
    ensures k < |offers| && (forall o :: o in offers ==> low <= o.landed <= high)
    ensures exists o :: o in offers && o.landed == low
    ensures exists o :: o in offers && o.landed == high
    ensures low <= high && forall j :: 0 <= j < |offers| && j != k ==>
              Ahead((Score(offers[k], low, high, denominator), offers[k].id),
                    (Score(offers[j], low, high, denominator), offers[j].id))
  {
    low, high := offers[0].landed, offers[0].landed;
    ghost var cheapest, dearest := 0, 0;
    for n := 1 to |offers|
      invariant 0 <= cheapest < |offers| && offers[cheapest].landed == low
      invariant 0 <= dearest < |offers| && offers[dearest].landed == high
      invariant forall i :: 0 <= i < n ==> low <= offers[i].landed <= high
    {
      if offers[n].landed < low { low := offers[n].landed; cheapest := n; }
      if offers[n].landed > high { high := offers[n].landed; dearest := n; }
    }
    assert offers[cheapest] in offers && offers[dearest] in offers;
    hide Score;
    k := 0;
    for n := 1 to |offers|
      invariant k < n
      invariant forall j :: 0 <= j < n && j != k ==>
        Ahead((Score(offers[k], low, high, denominator), offers[k].id),
              (Score(offers[j], low, high, denominator), offers[j].id))
    {
      if Ahead((Score(offers[n], low, high, denominator), offers[n].id),
               (Score(offers[k], low, high, denominator), offers[k].id))
      {
        k := n;
      }
    }
  }

  /** The first place is unique. */
  lemma FirstIsUnique(ranks: seq<(int, int)>, k: nat, l: nat)
    requires k < |ranks| && l < |ranks|
    requires forall j :: 0 <= j < |ranks| && j != k ==> Ahead(ranks[k], ranks[j])
    requires forall j :: 0 <= j < |ranks| && j != l ==> Ahead(ranks[l], ranks[j])
    ensures k == l
  {
    assert k != l ==> Ahead(ranks[k], ranks[l]);
  }
}
