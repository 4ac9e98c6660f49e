/**
 Price of a purchase that redeems a promotion bonus. Amounts are integer cents, the percentage is an
 exact rational, and every intermediate result is rounded to cents, ties upwards.
 */
module PromotionPricing {
  import opened Rounding
  import opened Wrappers

  datatype BonusTerms = BonusTerms(percent: real, cap: int, minCharge: int)

  datatype Preview = Preview(gross: int, discount: int, charged: int)

  datatype PricingError = PurchaseTooSmall

  ghost predicate ValidTerms(t: BonusTerms) {
    t.percent >= 0.0 && t.cap >= 0 && t.minCharge >= 0
  }

  function Min(a: int, b: int): int {
    if a <= b then a else b
  }

  function UncappedDiscount(percent: real, gross: int): int {
    RoundHalfUp(gross as real * percent / 100.0)
  }

  function BuildPreview(t: BonusTerms, gross: int): Result<Preview, PricingError> {
    var uncapped := UncappedDiscount(t.percent, gross);
    var allowed := if gross - t.minCharge > 0 then gross - t.minCharge else 0;
    var discount := Min(Min(uncapped, t.cap), allowed);
    if gross <= t.minCharge then Failure(PurchaseTooSmall)
    else Success(Preview(gross, discount, gross - discount))
  }

  /** The discount is never negative, never above the cap, and never eats into the minimum charge. */
  lemma PreviewSplitsGross(t: BonusTerms, gross: int)
    requires ValidTerms(t)
    ensures BuildPreview(t, gross).Success? <==> gross > t.minCharge
    ensures BuildPreview(t, gross).Success? ==>
              var p := BuildPreview(t, gross).value;
              && p.discount + p.charged == gross
              && 0 <= p.discount <= t.cap
              && t.minCharge <= p.charged <= gross
  {
    if gross > t.minCharge {
      var product := gross as real * t.percent;
      assert product >= 0.0;
      RoundRespectsBounds(product / 100.0, 0);
    }
  }

  /** What is left after a percentage discount grows with the gross amount, despite rounding. */
  lemma RemainderMonotone(percent: real, a: int, b: int)
    requires 0.0 <= percent <= 100.0 && a <= b
    ensures a - UncappedDiscount(percent, a) <= b - UncappedDiscount(percent, b)
  {
    var p := percent / 100.0;
    var gap := b - a;
    assert gap as real * p <= gap as real * 1.0;
    assert b as real * percent / 100.0 == a as real * percent / 100.0 + gap as real * p;
    RoundShift(a as real * percent / 100.0, gap);
    RoundMonotone(b as real * percent / 100.0, a as real * percent / 100.0 + gap as real);
  }

  /** A percentage of at least one hundred never discounts less than the whole amount before the caps. */
  lemma WholeDiscount(percent: real, gross: int)
    requires percent >= 100.0 && gross >= 0
    ensures UncappedDiscount(percent, gross) >= gross
  {
    assert gross as real * percent >= gross as real * 100.0;
    RoundRespectsBounds(gross as real * percent / 100.0, gross);
  }

  /** Buying more never costs less, for every percentage: rounding and the three caps included. */
  lemma ChargeMonotone(t: BonusTerms, a: int, b: int)
    requires ValidTerms(t) && t.minCharge < a <= b
    ensures BuildPreview(t, a).value.charged <= BuildPreview(t, b).value.charged
  {
    if t.percent <= 100.0 {
      RemainderMonotone(t.percent, a, b);
    } else {
      WholeDiscount(t.percent, a);
      WholeDiscount(t.percent, b);
    }
  }

  /**
   The discount is the greatest whole number of cents that does not exceed the percentage by more than half
   a cent, nor the cap, nor what is left above the minimum charge.
   */
  lemma DiscountIsGreatestAllowed(t: BonusTerms, gross: int, cents: int)
    requires gross > t.minCharge
    ensures var p := BuildPreview(t, gross);
            && p.Success?
            && Allowed(t, gross, p.value.discount)
            && (Allowed(t, gross, cents) ==> cents <= p.value.discount)
            && p.value.charged == gross - p.value.discount && p.value.gross == gross
  {
    RoundNearest(gross as real * t.percent / 100.0);
  }

  predicate Allowed(t: BonusTerms, gross: int, cents: int) {
    && cents as real <= gross as real * t.percent / 100.0 + 0.5
    && cents <= t.cap
    && cents <= gross - t.minCharge
  }
}
