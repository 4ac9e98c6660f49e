/**
 Amounts of a dispute resolution and the tickets a refund pays back in full. What the buyer paid is
 in integer cents; the amounts an administrator types are exact rationals, in cents.
 */
module DisputeMath {
  import opened Rounding
  import opened Wrappers

  datatype Decision = ForBuyer | ForSeller | Partial

  datatype AmountError = NegativeAmount | RefundRequired | SellerAmountRequired | ExceedsPaid

  datatype Split = Split(refund: int, seller: int)

  function OrElse(x: Option<real>, fallback: real): real {
    match x case Some(v) => v case None => fallback
  }

  function RawRefund(decision: Decision, paid: int, refund: Option<real>): real {
    match decision
    case ForBuyer => OrElse(refund, paid as real)
    case ForSeller => 0.0
    case Partial => OrElse(refund, 0.0)
  }

  function RawSeller(decision: Decision, paid: int, refund: Option<real>, seller: Option<real>): real {
    match decision
    case ForBuyer => 0.0
    case ForSeller => OrElse(seller, paid as real)
    case Partial =>
      var rest := paid as real - RawRefund(Partial, paid, refund);
      OrElse(seller, if rest > 0.0 then rest else 0.0)
  }

  /** Checks the requested amounts against what the buyer paid, with one cent of tolerance, then rounds both. */
  function SplitAmounts(decision: Decision, paid: int, refund: Option<real>, seller: Option<real>)
    : Result<Split, AmountError>
  {
    var r := RawRefund(decision, paid, refund);
    var s := RawSeller(decision, paid, refund, seller);
    if r < 0.0 || s < 0.0 then Failure(NegativeAmount)
    else if decision != ForSeller && r <= 0.0 then Failure(RefundRequired)
    else if decision == Partial && s <= 0.0 then Failure(SellerAmountRequired)
    else if r + s > paid as real + 1.0 then Failure(ExceedsPaid)
    else Success(Split(RoundHalfUp(r), RoundHalfUp(s)))
  }

  predicate Whole(x: Option<real>) {
    x.Some? ==> x.value == x.value.Floor as real
  }

  /**
   The refund passes the second limit check of the refund transaction, and both amounts together
   exceed what was paid by at most two cents, one when the inputs are whole cents.
   */
  lemma SplitWithinPaid(decision: Decision, paid: int, refund: Option<real>, seller: Option<real>)
    requires SplitAmounts(decision, paid, refund, seller).Success?
    ensures var x := SplitAmounts(decision, paid, refund, seller).value;
            && 0 <= x.refund <= paid + 1
            && 0 <= x.seller
            && x.refund + x.seller <= paid + 2
            && (Whole(refund) && Whole(seller) ==> x.refund + x.seller <= paid + 1)
            && (decision == ForSeller ==> x.refund == 0)
            && (decision == ForBuyer ==> x.seller == 0)
  {
    var r := RawRefund(decision, paid, refund);
    var s := RawSeller(decision, paid, refund, seller);
    RoundedPair(r, s, paid + 1);
    RoundRespectsBounds(0.0, 0);
    if Whole(refund) && Whole(seller) {
      WholeAmounts(decision, paid, refund, seller);
    }
  }

  lemma RoundedPair(r: real, s: real, limit: int)
    requires 0.0 <= r && 0.0 <= s && r + s <= limit as real
    ensures 0 <= RoundHalfUp(r) <= limit && 0 <= RoundHalfUp(s)
    ensures RoundHalfUp(r) + RoundHalfUp(s) <= limit + 1
    ensures r == r.Floor as real && s == s.Floor as real ==> RoundHalfUp(r) + RoundHalfUp(s) <= limit
  {
    RoundRespectsBounds(r, 0);
    RoundRespectsBounds(s, 0);
    RoundRespectsBounds(r, limit);
    RoundNearest(r);
    RoundNearest(s);
  }

  lemma WholeAmounts(decision: Decision, paid: int, refund: Option<real>, seller: Option<real>)
    requires Whole(refund) && Whole(seller)
    ensures var r := RawRefund(decision, paid, refund); r == r.Floor as real
    ensures var s := RawSeller(decision, paid, refund, seller); s == s.Floor as real
  {
    var r := RawRefund(decision, paid, refund);
    assert r == r.Floor as real;
    assert paid as real - r == (paid - r.Floor) as real;
  }

  /** The two-cent bound is reached, so it cannot be improved. */
  lemma SplitBoundIsTight(paid: int)
    requires paid >= 1
    ensures SplitAmounts(Partial, paid, Some(0.5), Some(paid as real + 0.5)) == Success(Split(1, paid + 1))
  {
    RoundShift(0.5, paid);
  }

  /** Without explicit amounts, or with only a whole-cent refund, the paid total is split exactly. */
  lemma DefaultsSplitExactly(paid: int, refund: int)
    requires 0 < refund < paid
    ensures SplitAmounts(ForBuyer, paid, None, None) == Success(Split(paid, 0))
    ensures SplitAmounts(ForSeller, paid, None, None) == Success(Split(0, paid))
    ensures SplitAmounts(Partial, paid, Some(refund as real), None) == Success(Split(refund, paid - refund))
  {
    RoundRespectsBounds(paid as real, paid);
    RoundRespectsBounds(0.0, 0);
    RoundRespectsBounds(refund as real, refund);
    RoundRespectsBounds((paid - refund) as real, paid - refund);
  }

  /** A whole number of cents within half a cent of an exact amount, the upper one on a tie. */
  predicate Nearest(cents: int, amount: real) {
    amount - 0.5 < cents as real <= amount + 0.5
  }

  /** The amount given, or what stands in for it. */
  ghost predicate Stands(given: Option<real>, fallback: real, amount: real) {
    match given
    case Some(x) => amount == x
    case None => amount == fallback
  }

  /**
   For the buyer: the amount requested, or everything paid when none is, accepted exactly when it is positive
   and at most a cent above what was paid. It is recorded to the nearest cent, and nothing for the seller.
   */
  lemma AmountsForBuyer(paid: nat, refund: Option<real>, seller: Option<real>, wanted: real)
    requires Stands(refund, paid as real, wanted)
    ensures var x := SplitAmounts(ForBuyer, paid, refund, seller);
            && (x.Success? <==> 0.0 < wanted <= paid as real + 1.0)
            && (x.Success? ==> Nearest(x.value.refund, wanted) && x.value.seller == 0)
  {
    RoundNearest(wanted);
    RoundRespectsBounds(0.0, 0);
  }

  /** For the seller: the same for the seller's amount, which may also be zero, and nothing for the buyer. */
  lemma AmountsForSeller(paid: nat, refund: Option<real>, seller: Option<real>, wanted: real)
    requires Stands(seller, paid as real, wanted)
    ensures var x := SplitAmounts(ForSeller, paid, refund, seller);
            && (x.Success? <==> 0.0 <= wanted <= paid as real + 1.0)
            && (x.Success? ==> Nearest(x.value.seller, wanted) && x.value.refund == 0)
  {
    RoundNearest(wanted);
    RoundRespectsBounds(0.0, 0);
  }

  /**
   A partial resolution needs a positive amount for each, together at most a cent above what was paid; the
   buyer's defaults to zero (and is then refused), the seller's to the rest, if there is any.
   */
  lemma AmountsPartial(paid: nat, refund: Option<real>, seller: Option<real>, buyerAmount: real, sellerAmount: real)
    requires Stands(refund, 0.0, buyerAmount)
    requires Stands(seller, if buyerAmount < paid as real then paid as real - buyerAmount else 0.0, sellerAmount)
    ensures var x := SplitAmounts(Partial, paid, refund, seller);
            && (x.Success? <==> buyerAmount > 0.0 && sellerAmount > 0.0 && buyerAmount + sellerAmount <= paid as real + 1.0)
            && (x.Success? ==> Nearest(x.value.refund, buyerAmount) && Nearest(x.value.seller, sellerAmount))
  {
    RoundNearest(buyerAmount);
    RoundNearest(sellerAmount);
  }

  function Total(prices: seq<nat>): nat {
    if |prices| == 0 then 0 else prices[0] + Total(prices[1..])
  }

  /** How many tickets, oldest first, a refund of this size pays back in full. */
  function Covered(prices: seq<nat>, budget: int): (k: nat)
    ensures k <= |prices|
  {
    if |prices| == 0 || budget <= 0 || budget < prices[0] then 0
    else 1 + Covered(prices[1..], budget - prices[0])
  }

  /**
   The tickets paid back are exactly the longest prefix whose total fits into the refund; what is
   left over is less than the price of the next ticket.
   */
  lemma {:induction false} CoveredIsLongestPrefix(prices: seq<nat>, budget: int, j: nat)
    requires budget >= 0 && j <= |prices| && forall i :: 0 <= i < |prices| ==> prices[i] > 0
    ensures Total(prices[..j]) <= budget <==> j <= Covered(prices, budget)
  {
    if j == 0 {
      assert prices[..0] == [];
    } else {
      assert prices[..j][1..] == prices[1..][..j - 1];
      assert Total(prices[..j]) == prices[0] + Total(prices[1..][..j - 1]);
      if budget >= prices[0] {
        CoveredIsLongestPrefix(prices[1..], budget - prices[0], j - 1);
      }
    }
  }

  /** A refund of at least everything paid covers every ticket. */
  lemma FullRefundCoversAll(prices: seq<nat>, budget: int)
    requires budget >= Total(prices) && forall i :: 0 <= i < |prices| ==> prices[i] > 0
    ensures Covered(prices, budget) == |prices|
  {
    assert prices[..|prices|] == prices;
    CoveredIsLongestPrefix(prices, budget, |prices|);
  }

  lemma {:induction false} CoveredWithin(prices: seq<nat>, budget: int)
    requires budget >= 0
    ensures Total(prices[..Covered(prices, budget)]) <= budget
  {
    var k := Covered(prices, budget);
    if k == 0 {
      assert prices[..0] == [];
    } else {
      CoveredWithin(prices[1..], budget - prices[0]);
      assert prices[..k][1..] == prices[1..][..k - 1];
    }
  }

  /** The loop over the buyer's paid tickets that decides which ones are marked as refunded. */
  method FullyRefunded(ids: seq<nat>, prices: seq<nat>, refundCents: int) returns (refunded: seq<nat>)
    requires |ids| == |prices|
    ensures refunded == ids[..Covered(prices, refundCents)]
  {
    var remaining := refundCents;
    refunded := [];
    var k := 0;
    ghost var short := false;
    while k < |ids|
      invariant 0 <= k <= |ids|
      invariant short ==> remaining == 0 && refunded == ids[..Covered(prices, refundCents)]
      invariant !short ==> refunded == ids[..k]
                           && Covered(prices, refundCents) == k + Covered(prices[k..], remaining)
    {
      if remaining <= 0 {
        break;
      }
      var cents := prices[k];
      if remaining >= cents {
        refunded := refunded + [ids[k]];
        assert prices[k..][1..] == prices[k + 1..];
      } else {
        short := true;
      }
      remaining := remaining - (if remaining <= cents then remaining else cents);
      k := k + 1;
    }
  }
}
