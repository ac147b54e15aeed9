/**
 * `estimatePhototype` (app.jsx): HSL lightness of the mean colour, bucketed
 * into five classes by strict `>` comparisons against 0.75, 0.6, 0.45 and 0.3.
 * Lightness is kept as an exact fraction `num / den`.
 */
module Phototypes {
  import opened Rounding

  /** The five classes, lightest first. */
  datatype Phototype = TypeI_II | TypeIII | TypeIV | TypeV | TypeVI
  {
    /** The tag the page stores and puts in the payload. */
    function Tag(): string
    {
      match this
      case TypeI_II => "I-II"
      case TypeIII => "III"
      case TypeIV => "IV"
      case TypeV => "V"
      case TypeVI => "VI"
    }

    /** Position in the order from lightest (0) to darkest (4). */
    function Rank(): nat
    {
      match this
      case TypeI_II => 0
      case TypeIII => 1
      case TypeIV => 2
      case TypeV => 3
      case TypeVI => 4
    }
  }

  function Max3(a: nat, b: nat, c: nat): (m: nat)
    ensures m >= a && m >= b && m >= c
    ensures m == a || m == b || m == c
  {
    if a >= b && a >= c then a else if b >= c then b else c
  }

  function Min3(a: nat, b: nat, c: nat): (m: nat)
    ensures m <= a && m <= b && m <= c
    ensures m == a || m == b || m == c
  {
    if a <= b && a <= c then a else if b <= c then b else c
  }

  /**
   * The first-match-wins threshold chain of `estimatePhototype`, on
   * `L = num / den`. The classes partition the lightness axis into bands, and
   * a value on a threshold falls in the darker band.
   */
  function Classify(num: nat, den: nat): (p: Phototype)
    requires den > 0
    ensures p == TypeI_II <==> 100 * num > 75 * den
    ensures p == TypeIII <==> 60 * den < 100 * num <= 75 * den
    ensures p == TypeIV <==> 45 * den < 100 * num <= 60 * den
    ensures p == TypeV <==> 30 * den < 100 * num <= 45 * den
    ensures p == TypeVI <==> 100 * num <= 30 * den
  {
    if 100 * num > 75 * den then TypeI_II
    else if 100 * num > 60 * den then TypeIII
    else if 100 * num > 45 * den then TypeIV
    else if 100 * num > 30 * den then TypeV
    else TypeVI
  }

  /**
   * `estimatePhototype(r, g, b)` called with the channel means
   * `rSum / count`, `gSum / count`, `bSum / count`: dividing each by 255 and
   * halving `max + min` gives `L = (max + min) / (510 * count)` over the sums.
   * So the class is I-II exactly when the largest and smallest totals add up
   * to more than `0.75 * 510 * count`, and so on down to VI.
   */
  function EstimatePhototype(rSum: nat, gSum: nat, bSum: nat, count: nat): (p: Phototype)
    requires count > 0
    ensures var l := Max3(rSum, gSum, bSum) + Min3(rSum, gSum, bSum);
      (p == TypeI_II <==> 100 * l > 75 * 510 * count) &&
      (p == TypeIII <==> 60 * 510 * count < 100 * l <= 75 * 510 * count) &&
      (p == TypeIV <==> 45 * 510 * count < 100 * l <= 60 * 510 * count) &&
      (p == TypeV <==> 30 * 510 * count < 100 * l <= 45 * 510 * count) &&
      (p == TypeVI <==> 100 * l <= 30 * 510 * count)
  {
    Classify(Max3(rSum, gSum, bSum) + Min3(rSum, gSum, bSum), 510 * count)
  }

  /** Only the largest and the smallest channel matter, not which channel holds them. */
  lemma ChannelOrderIrrelevant(rSum: nat, gSum: nat, bSum: nat, count: nat)
    requires count > 0
    ensures EstimatePhototype(rSum, gSum, bSum, count) == EstimatePhototype(gSum, bSum, rSum, count)
    ensures EstimatePhototype(rSum, gSum, bSum, count) == EstimatePhototype(gSum, rSum, bSum, count)
  {
    assert Max3(rSum, gSum, bSum) == Max3(gSum, bSum, rSum) == Max3(gSum, rSum, bSum);
    assert Min3(rSum, gSum, bSum) == Min3(gSum, bSum, rSum) == Min3(gSum, rSum, bSum);
  }

  /** If `num1 / den1 <= num2 / den2` and the first is above `t / 100`, so is the second. */
  lemma {:induction false} AboveThreshold(num1: nat, den1: nat, num2: nat, den2: nat, t: nat)
    requires den1 > 0 && den2 > 0
    requires num1 * den2 <= num2 * den1
    requires 100 * num1 > t * den1
    ensures 100 * num2 > t * den2
  {
    if 100 * num2 <= t * den2 {
      MulStrict(t * den1, 100 * num1, den2);
      MulMono(num1 * den2, num2 * den1, 100);
      MulMono(100 * num2, t * den2, den1);
    }
  }

  /** Higher lightness never gives a darker class. */
  lemma {:induction false} ClassifyMonotone(num1: nat, den1: nat, num2: nat, den2: nat)
    requires den1 > 0 && den2 > 0
    requires num1 * den2 <= num2 * den1
    ensures Classify(num2, den2).Rank() <= Classify(num1, den1).Rank()
  {
    if 100 * num1 > 75 * den1 { AboveThreshold(num1, den1, num2, den2, 75); }
    else if 100 * num1 > 60 * den1 { AboveThreshold(num1, den1, num2, den2, 60); }
    else if 100 * num1 > 45 * den1 { AboveThreshold(num1, den1, num2, den2, 45); }
    else if 100 * num1 > 30 * den1 { AboveThreshold(num1, den1, num2, den2, 30); }
  }

  /** Over the same number of pixels, a colour at least as bright in every channel is never classed darker. */
  lemma {:induction false} BrighterChannelsNotDarker(r1: nat, g1: nat, b1: nat, r2: nat, g2: nat, b2: nat, count: nat)
    requires count > 0
    requires r1 <= r2 && g1 <= g2 && b1 <= b2
    ensures EstimatePhototype(r2, g2, b2, count).Rank() <= EstimatePhototype(r1, g1, b1, count).Rank()
  {
    var n1 := Max3(r1, g1, b1) + Min3(r1, g1, b1);
    var n2 := Max3(r2, g2, b2) + Min3(r2, g2, b2);
    assert n1 <= n2;
    MulMono(n1, n2, 510 * count);
    ClassifyMonotone(n1, 510 * count, n2, 510 * count);
  }

  /** The mean colour (200, 190, 180) has `L = 380 / 510`, a little under 0.75: class III. */
  lemma LightSkinExample()
    ensures EstimatePhototype(200, 190, 180, 1) == TypeIII
  {
  }

  /**
   * Lightness exactly 0.75, from two pixels whose channel sums are
   * (400, 380, 365), lands in the darker class III.
   */
  lemma OnThresholdExample()
    ensures EstimatePhototype(400, 380, 365, 2) == TypeIII
  {
  }
}
