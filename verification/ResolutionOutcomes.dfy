/** What resolving a dispute writes: the decision, the amounts, the money and the tickets. */
module ResolutionOutcomes {
  import opened DisputeMath
  import ExactConditions
  import opened Ledger
  import opened LifecycleKeeps
  import opened Market
  import opened MarketInvariant
  import opened Raffles
  import opened RefundKeeps
  import opened Tickets
  import opened Wrappers

  /** The buyer gained and the seller's payable lost the refund; no other balance of anybody changed. */
  ghost predicate RefundMoved(before: seq<Wallet>, after: seq<Wallet>, buyer: nat, seller: nat, cents: int) {
    && |after| == |before| && buyer < |before| && seller < |before|
    && after[buyer].credit == before[buyer].credit + cents
    && after[seller].payable == before[seller].payable - cents
    && forall u :: 0 <= u < |before| ==>
         && (u != buyer ==> after[u].credit == before[u].credit)
         && (u != seller ==> after[u].payable == before[u].payable)
  }

  /** Closed with this decision and these amounts; confirmed for the seller, disputed otherwise; finished. */
  predicate ClosedAs(r: Raffle, s: Raffle, decision: Decision, split: Split, now: Time) {
    && r.dispute.Some? && s.dispute.Some?
    && s.dispute.value == r.dispute.value.(status := DisputeStatus.Resolved(decision), refund := split.refund,
                                           sellerAmount := split.seller, resolvedAt := Some(now))
    && (decision == ForSeller <==> s.delivery == Confirmed)
    && (decision != ForSeller <==> s.delivery == Disputed)
    && s.status == Finalised
    && s == r.(dispute := s.dispute, delivery := s.delivery, status := s.status, tickets := s.tickets)
  }

  /** Of the buyer's paid tickets the first ones, as many as the refund pays for in full, are refunded, and no other ticket is touched. */
  ghost predicate OldestRefunded(before: seq<Ticket>, after: seq<Ticket>, buyer: nat, cents: int) {
    PaidPositionsValid(before, buyer);
    && |after| == |before|
    && var positions := PaidPositions(before, buyer);
    && exists n: nat :: n <= |positions| && PaysExactly(before, positions, n, cents)
         && forall k: nat :: k < |before| ==>
              after[k] == if k in positions[..n] then before[k].(refunded := true) else before[k]
  }

  /** The refund pays for the first n of these tickets and not for one more. */
  ghost predicate PaysExactly(tickets: seq<Ticket>, positions: seq<nat>, n: nat, cents: int)
    requires n <= |positions| && forall k :: 0 <= k < |positions| ==> positions[k] < |tickets|
  {
    && Total(Prices(tickets, positions)[..n]) <= cents
    && (n < |positions| ==> cents < Total(Prices(tickets, positions)[..n + 1]))
  }

  lemma CoveredPaysExactly(tickets: seq<Ticket>, buyer: nat, cents: int)
    requires cents >= 0 && forall k :: 0 <= k < |tickets| ==> tickets[k].price > 0
    ensures OldestRefunded(tickets, Marked(tickets, Members(RefundedPositions(tickets, buyer, cents))), buyer, cents)
  {
    PaidPositionsValid(tickets, buyer);
    var positions := PaidPositions(tickets, buyer);
    var prices := Prices(tickets, positions);
    var n := Covered(prices, cents);
    CoveredIsLongestPrefix(prices, cents, n);
    if n < |positions| {
      CoveredIsLongestPrefix(prices, cents, n + 1);
    }
    assert PaysExactly(tickets, positions, n, cents);
  }

  /** When the refund of a resolution can be made. */
  predicate Refundable(d: Db, i: nat, cents: int)
    requires i < |d.raffles| && d.raffles[i].dispute.Some? && d.raffles[i].seller < |d.books.wallets|
  {
    var r := d.raffles[i];
    cents == 0 || (ActiveCount(r.tickets, r.dispute.value.reporter) > 0 && cents <= d.books.wallets[r.seller].payable)
  }

  lemma RefundMoves(b: Books, i: nat, buyer: nat, seller: nat, cents: int)
    requires buyer < |b.wallets| && seller < |b.wallets| && cents > 0
    ensures DisputeBooks(b, i, buyer, seller, cents).Success? <==> cents <= b.wallets[seller].payable
    ensures DisputeBooks(b, i, buyer, seller, cents).Success? ==>
              RefundMoved(b.wallets, DisputeBooks(b, i, buyer, seller, cents).value.wallets, buyer, seller, cents)
  {
  }

  lemma PlainResolution(d: Db, i: nat, decision: Decision, refund: Option<real>, seller: Option<real>, now: Time, split: Split)
    requires Inv(d) && i < |d.raffles| && DisputeActive(d.raffles[i])
    requires SplitAmounts(decision, PaidBy(d.raffles[i].tickets, d.raffles[i].dispute.value.reporter), refund, seller) == Success(split)
    requires split.refund == 0
    ensures var a := Resolve(d, i, decision, refund, seller, now);
            && a.error.None? && |a.db.raffles| == |d.raffles|
            && ClosedAs(d.raffles[i], a.db.raffles[i], decision, split, now)
            && a.db.raffles[i].tickets == d.raffles[i].tickets && a.db.books == d.books
  {
  }

  lemma RefundingResolution(d: Db, i: nat, decision: Decision, refund: Option<real>, seller: Option<real>, now: Time, split: Split)
    requires Inv(d) && i < |d.raffles| && DisputeActive(d.raffles[i])
    requires SplitAmounts(decision, PaidBy(d.raffles[i].tickets, d.raffles[i].dispute.value.reporter), refund, seller) == Success(split)
    requires split.refund > 0 && DisputeRefund(d, i, d.raffles[i].dispute.value.reporter, split.refund).error.None?
    ensures var r := d.raffles[i];
            var a := Resolve(d, i, decision, refund, seller, now);
            && a.error.None? && |a.db.raffles| == |d.raffles|
            && ClosedAs(r, a.db.raffles[i], decision, split, now)
            && RefundMoved(d.books.wallets, a.db.books.wallets, r.dispute.value.reporter, r.seller, split.refund)
            && OldestRefunded(r.tickets, a.db.raffles[i].tickets, r.dispute.value.reporter, split.refund)
  {
    RowOf(d, i);
    ResolveResult(d, i, decision, refund, seller, now);
    var r := d.raffles[i];
    RefundMoves(d.books, i, r.dispute.value.reporter, r.seller, split.refund);
    CoveredPaysExactly(r.tickets, r.dispute.value.reporter, split.refund);
  }

  lemma RefusedResolution(d: Db, i: nat, decision: Decision, refund: Option<real>, seller: Option<real>, now: Time, split: Split)
    requires i < |d.raffles| && DisputeActive(d.raffles[i])
    requires SplitAmounts(decision, PaidBy(d.raffles[i].tickets, d.raffles[i].dispute.value.reporter), refund, seller) == Success(split)
    requires split.refund > 0 && DisputeRefund(d, i, d.raffles[i].dispute.value.reporter, split.refund).error.Some?
    ensures var a := Resolve(d, i, decision, refund, seller, now); a.error.Some? && a.db == d
  {
  }

  /**
   A resolution with acceptable amounts is written exactly when its refund can be made; then the row, the
   two balances and the tickets are what was decided. Otherwise nothing changes.
   */
  lemma ResolutionIsWritten(d: Db, i: nat, decision: Decision, refund: Option<real>, seller: Option<real>, now: Time, split: Split)
    requires Inv(d) && i < |d.raffles| && DisputeActive(d.raffles[i])
    requires SplitAmounts(decision, PaidBy(d.raffles[i].tickets, d.raffles[i].dispute.value.reporter), refund, seller) == Success(split)
    ensures d.raffles[i].seller < |d.books.wallets|
    ensures var r := d.raffles[i];
            var a := Resolve(d, i, decision, refund, seller, now);
            && (a.error.None? <==> Refundable(d, i, split.refund))
            && (a.error.Some? ==> a.db == d)
            && (a.error.None? ==>
                  && |a.db.raffles| == |d.raffles|
                  && ClosedAs(r, a.db.raffles[i], decision, split, now)
                  && (split.refund == 0 ==> a.db.books == d.books && a.db.raffles[i].tickets == r.tickets)
                  && (split.refund > 0 ==>
                        && RefundMoved(d.books.wallets, a.db.books.wallets, r.dispute.value.reporter, r.seller, split.refund)
                        && OldestRefunded(r.tickets, a.db.raffles[i].tickets, r.dispute.value.reporter, split.refund)))
  {
    RowOf(d, i);
    var r := d.raffles[i];
    SplitWithinPaid(decision, PaidBy(r.tickets, r.dispute.value.reporter), refund, seller);
    if split.refund == 0 {
      PlainResolution(d, i, decision, refund, seller, now, split);
    } else {
      ExactConditions.DisputeRefundExactly(d, i, split.refund);
      if DisputeRefund(d, i, r.dispute.value.reporter, split.refund).error.None? {
        RefundingResolution(d, i, decision, refund, seller, now, split);
      } else {
        RefusedResolution(d, i, decision, refund, seller, now, split);
      }
    }
  }

  /** Without an active dispute, or with unacceptable amounts, a resolution is refused and changes nothing. */
  lemma UnacceptableResolution(d: Db, i: nat, decision: Decision, refund: Option<real>, seller: Option<real>, now: Time)
    requires i >= |d.raffles| || !DisputeActive(d.raffles[i])
             || SplitAmounts(decision, PaidBy(d.raffles[i].tickets, d.raffles[i].dispute.value.reporter), refund, seller).Failure?
    ensures var a := Resolve(d, i, decision, refund, seller, now); a.error.Some? && a.db == d
  {
  }
}
