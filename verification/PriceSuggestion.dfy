/**
 The price suggested when a raffle does not sell enough. Prices are integer cents; the reduction is
 half of the unsold share. Two services compute it, with different reported percentages.
 */
module PriceSuggestion {
  import opened Rounding

  ghost predicate ValidSale(sold: int, total: int) {
    0 <= sold <= total && total > 0
  }

  datatype Suggestion = Suggestion(price: int, reductionPercent: real)

  function SoldShare(sold: int, total: int): real
    requires total > 0
  {
    sold as real / total as real
  }

  /** Suggestion on demand: the percentage is derived from the rounded price and rounded to two decimals. */
  function SuggestOnDemand(price: int, sold: int, total: int): Suggestion
    requires price > 0 && total > 0
  {
    var factor := (1.0 - SoldShare(sold, total)) * 0.5;
    var suggested := RoundHalfUp(price as real * (1.0 - factor));
    var percent := RoundHalfUp((price - suggested) as real / price as real * 100.0 * 100.0) as real / 100.0;
    Suggestion(suggested, percent)
  }

  /** Suggestion by the expiry task: the percentage is the unrounded reduction factor. */
  function SuggestOnExpiry(price: int, sold: int, total: int): Suggestion
    requires price > 0 && total > 0
  {
    var notSold := 1.0 - SoldShare(sold, total);
    var factor := notSold * 0.5;
    Suggestion(RoundHalfUp(price as real * (1.0 - factor)), factor * 100.0)
  }

  /** The exact share of the price that is kept: from one half with no sales to all with every ticket sold. */
  function KeptShare(sold: int, total: int): real
    requires total > 0
  {
    (1.0 + SoldShare(sold, total)) / 2.0
  }

  lemma ShareBounds(sold: int, total: int)
    requires ValidSale(sold, total)
    ensures 0.0 <= SoldShare(sold, total) <= 1.0
    ensures 0.5 <= KeptShare(sold, total) <= 1.0
  {
    var q := SoldShare(sold, total);
    assert q * total as real == sold as real;
    ScaleOrder(q, 1.0, total as real);
    ScaleOrder(0.0, q, total as real);
  }

  lemma ShareMonotone(a: int, b: int, total: int)
    requires 0 <= a <= b && total > 0
    ensures SoldShare(a, total) <= SoldShare(b, total)
  {
    var x, y := SoldShare(a, total), SoldShare(b, total);
    assert x * total as real == a as real && y * total as real == b as real;
    ScaleOrder(x, y, total as real);
  }

  lemma SuggestedIsKeptShare(price: int, sold: int, total: int)
    requires price > 0 && total > 0
    ensures SuggestOnDemand(price, sold, total).price == RoundHalfUp(price as real * KeptShare(sold, total))
    ensures SuggestOnExpiry(price, sold, total).price == RoundHalfUp(price as real * KeptShare(sold, total))
  {
    var q := SoldShare(sold, total);
    assert 1.0 - (1.0 - q) * 0.5 == (1.0 + q) / 2.0;
  }

  /** The suggestion is the nearest cent to the price less half its unsold share: half of it with no sales, all of it with all sold. */
  lemma SuggestionIsNearest(price: int, sold: int, total: int)
    requires price > 0 && ValidSale(sold, total)
    ensures var exact := price as real * (1.0 + sold as real / total as real) / 2.0;
            var s := SuggestOnExpiry(price, sold, total).price as real;
            exact - 0.5 < s <= exact + 0.5
    ensures sold == total ==> SuggestOnExpiry(price, sold, total).price == price
    ensures sold == 0 ==> price <= 2 * SuggestOnExpiry(price, sold, total).price <= price + 1
  {
    SuggestedIsKeptShare(price, sold, total);
    var kept := KeptShare(sold, total);
    RoundNearest(price as real * kept);
    assert price as real * kept == price as real * (1.0 + sold as real / total as real) / 2.0;
    if sold == total {
      AllSold(total);
      RoundRespectsBounds(price as real, price);
    }
    if sold == 0 {
      assert SoldShare(sold, total) == 0.0;
      HalfRounded(price);
    }
  }

  lemma AllSold(total: int)
    requires total > 0
    ensures SoldShare(total, total) == 1.0
  {
    var q := SoldShare(total, total);
    assert q * total as real == total as real;
    ScaleOrder(q, 1.0, total as real);
    ScaleOrder(1.0, q, total as real);
  }

  lemma HalfRounded(price: int)
    ensures price <= 2 * RoundHalfUp(price as real * 0.5) <= price + 1
  {
  }

  /** Both implementations suggest the same price, between half and all of the old one up to rounding, and at least one cent. */
  lemma SuggestionBounds(price: int, sold: int, total: int)
    requires price > 0 && ValidSale(sold, total)
    ensures SuggestOnDemand(price, sold, total).price == SuggestOnExpiry(price, sold, total).price
    ensures var s := SuggestOnExpiry(price, sold, total).price;
            1 <= s <= price && price <= 2 * s
  {
    var kept := KeptShare(sold, total);
    ShareBounds(sold, total);
    SuggestedIsKeptShare(price, sold, total);
    KeptPrice(price, kept);
  }

  lemma KeptPrice(price: int, kept: real)
    requires price > 0 && 0.5 <= kept <= 1.0
    ensures var s := RoundHalfUp(price as real * kept); 1 <= s <= price && price <= 2 * s
  {
    HalfToWhole(price as real, kept);
    RoundBetweenHalfAndWhole(price, price as real * kept);
  }

  lemma HalfToWhole(p: real, kept: real)
    requires p > 0.0 && 0.5 <= kept <= 1.0
    ensures 0.5 * p <= p * kept <= p
  {
    ScaleOrder(0.5, kept, p);
    ScaleOrder(kept, 1.0, p);
  }

  lemma RoundBetweenHalfAndWhole(price: int, x: real)
    requires price > 0 && 0.5 * price as real <= x <= price as real
    ensures 1 <= RoundHalfUp(x) <= price && price <= 2 * RoundHalfUp(x)
  {
    RoundNearest(x);
    RoundRespectsBounds(x, price);
  }

  /** Selling more tickets never lowers the suggestion. */
  lemma SuggestionMonotone(price: int, a: int, b: int, total: int)
    requires price > 0 && total > 0 && 0 <= a <= b <= total
    ensures SuggestOnExpiry(price, a, total).price <= SuggestOnExpiry(price, b, total).price
  {
    ShareMonotone(a, b, total);
    SuggestedIsKeptShare(price, a, total);
    SuggestedIsKeptShare(price, b, total);
    assert price as real * KeptShare(a, total) <= price as real * KeptShare(b, total);
    RoundMonotone(price as real * KeptShare(a, total), price as real * KeptShare(b, total));
  }

  function Abs(x: real): real {
    if x < 0.0 then -x else x
  }

  /** The two reported percentages differ by at most 50 / price + 0.005 points. */
  lemma PercentagesAgree(price: int, sold: int, total: int)
    requires price > 0 && ValidSale(sold, total)
    ensures Abs(SuggestOnDemand(price, sold, total).reductionPercent
                - SuggestOnExpiry(price, sold, total).reductionPercent)
            <= 50.0 / price as real + 0.005
  {
    var p := price as real;
    var kept := KeptShare(sold, total);
    SuggestedIsKeptShare(price, sold, total);
    var s := SuggestOnDemand(price, sold, total).price as real;
    RoundNearest(p * kept);
    var ratio := (p - s) / p;
    RatioNear(p, s, kept);
    RoundNearest(ratio * 100.0 * 100.0);
    var demand := SuggestOnDemand(price, sold, total).reductionPercent;
    assert demand - 0.005 <= ratio * 100.0 <= demand + 0.005;
    assert SuggestOnExpiry(price, sold, total).reductionPercent == (1.0 - kept) * 100.0;
    assert 0.5 / p * 100.0 == 50.0 / p;
  }

  lemma RatioNear(p: real, s: real, kept: real)
    requires p > 0.0 && p * kept - 0.5 < s <= p * kept + 0.5
    ensures (1.0 - kept) - 0.5 / p <= (p - s) / p <= (1.0 - kept) + 0.5 / p
  {
    var ratio := (p - s) / p;
    var half := 0.5 / p;
    assert ratio * p == p - s && half * p == 0.5;
    assert ((1.0 - kept) + half) * p == p - p * kept + 0.5;
    assert ((1.0 - kept) - half) * p == p - p * kept - 0.5;
    ScaleOrder(ratio, (1.0 - kept) + half, p);
    ScaleOrder((1.0 - kept) - half, ratio, p);
  }

  datatype Sale = Sale(sold: int, total: int)

  /** The prices of a raffle that keeps failing and is relaunched at each suggestion. */
  ghost function RelaunchPrice(price: int, sales: seq<Sale>): int
    requires price > 0 && forall k :: 0 <= k < |sales| ==> ValidSale(sales[k].sold, sales[k].total)
  {
    if |sales| == 0 then price
    else
      var last := |sales| - 1;
      var current := RelaunchPrice(price, sales[..last]);
      var sale := sales[last];
      assert ValidSale(sale.sold, sale.total);
      if current > 0 then SuggestOnExpiry(current, sale.sold, sale.total).price else current
  }

  /** However often it is relaunched, the price stays positive and never rises. */
  lemma {:induction false} RelaunchStaysPositive(price: int, sales: seq<Sale>)
    requires price > 0 && forall k :: 0 <= k < |sales| ==> ValidSale(sales[k].sold, sales[k].total)
    ensures 1 <= RelaunchPrice(price, sales) <= price
    ensures |sales| > 0 ==> RelaunchPrice(price, sales) <= RelaunchPrice(price, sales[..|sales| - 1])
  {
    if |sales| > 0 {
      var last := |sales| - 1;
      RelaunchStaysPositive(price, sales[..last]);
      SuggestionBounds(RelaunchPrice(price, sales[..last]), sales[last].sold, sales[last].total);
    }
  }
}
