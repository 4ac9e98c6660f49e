/**
 When the calls do what their names promise, exactly, and what follows for ever when they do not.
 */
module ExactConditions {
  import opened DisputeMath
  import opened Ledger
  import opened LifecycleKeeps
  import opened Market
  import opened MarketInvariant
  import opened PayoutKeeps
  import opened PromotionPricing
  import opened PurchaseKeeps
  import opened RaffleInvariant
  import opened Raffles
  import opened RefundKeeps
  import opened Rounding
  import opened Runs
  import StepsFollow
  import opened Theorems
  import opened TicketSelection
  import opened Tickets
  import opened TopUpKeeps
  import opened TopUps
  import opened Wrappers

  // ----- Purchases -----

  /** What an accepted purchase did: the tickets, the charge and the seller's share. */
  ghost predicate BoughtAsBilled(d: Db, e: Db, i: nat, buyer: nat, ns: seq<int>, bill: Bill)
    requires i < |d.raffles|
  {
    var r := d.raffles[i];
    && |e.raffles| == |d.raffles|
    && e.raffles[i].tickets == r.tickets + Issued(ns, buyer, r.price)
    && |e.books.wallets| == |d.books.wallets|
    && buyer < |d.books.wallets| && r.seller < |d.books.wallets|
    && buyer != r.seller
    && e.books.wallets[buyer].credit == d.books.wallets[buyer].credit - bill.charge
    && e.books.wallets[r.seller].payable == d.books.wallets[r.seller].payable + bill.sellerNet
  }

  /** A purchase goes through exactly when it is acceptable and priced, the buyer can pay, and the seller earns. */
  lemma PurchaseSucceedsExactly(d: Db, i: nat, buyer: nat, q: Request, bonus: Option<BonusTerms>)
    requires Inv(d) && i < |d.raffles| && buyer < |d.books.wallets| && DrawsFit(d.raffles[i], buyer, q)
    ensures var r := d.raffles[i];
            var pack := PackFor(r, buyer, q);
            Buy(d, i, buyer, q, bonus).error.None? <==>
            && PurchaseCheck(r, buyer, q).None?
            && BillFor(d.config, r, pack, q, bonus).Success?
            && var bill := BillFor(d.config, r, pack, q, bonus).value;
            && 0 < bill.charge <= d.books.wallets[buyer].credit && 0 < bill.sellerNet
    ensures Buy(d, i, buyer, q, bonus).error.Some? ==> Buy(d, i, buyer, q, bonus).db == d
  {
    RowOf(d, i);
    var r := d.raffles[i];
    if PurchaseCheck(r, buyer, q).None? && BillFor(d.config, r, PackFor(r, buyer, q), q, bonus).Success? {
      PurchaseBooksExactly(d.books, i, buyer, r.seller, BillFor(d.config, r, PackFor(r, buyer, q), q, bonus).value);
    }
  }

  /** It then issues exactly the granted number of different free tickets, and moves exactly the billed amounts. */
  lemma PurchaseIssuesTheGrant(d: Db, i: nat, buyer: nat, q: Request, bonus: Option<BonusTerms>)
    requires Inv(d) && i < |d.raffles| && buyer < |d.books.wallets| && DrawsFit(d.raffles[i], buyer, q)
    requires Buy(d, i, buyer, q, bonus).error.None?
    ensures var r := d.raffles[i];
            var ns := ReservedNumbers(r, buyer, q);
            && PurchaseCheck(r, buyer, q).None?
            && |ns| == PackFor(r, buyer, q).grantedQuantity && Distinct(ns)
            && (forall n :: n in ns ==> 1 <= n <= r.total && n !in UsedNumbers(r.tickets))
            && var bill := BillFor(d.config, r, PackFor(r, buyer, q), q, bonus);
            && bill.Success?
            && BoughtAsBilled(d, Buy(d, i, buyer, q, bonus).db, i, buyer, ns, bill.value)
  {
    RowOf(d, i);
    var r := d.raffles[i];
    AcceptedNumbers(r, buyer, q);
    PurchaseBooksExactly(d.books, i, buyer, r.seller, BillFor(d.config, r, PackFor(r, buyer, q), q, bonus).value);
    PurchaseWrites(d, i, buyer, q, bonus);
  }

  lemma PurchaseWrites(d: Db, i: nat, buyer: nat, q: Request, bonus: Option<BonusTerms>)
    requires i < |d.raffles| && DrawsFit(d.raffles[i], buyer, q)
    requires Buy(d, i, buyer, q, bonus).error.None?
    ensures var r := d.raffles[i];
            var bill := BillFor(d.config, r, PackFor(r, buyer, q), q, bonus);
            && bill.Success? && PurchaseBooks(d.books, i, buyer, r.seller, bill.value).Success?
            && Buy(d, i, buyer, q, bonus).db.books == PurchaseBooks(d.books, i, buyer, r.seller, bill.value).value
            && Buy(d, i, buyer, q, bonus).db.raffles
               == d.raffles[i := r.(tickets := Bought(r.tickets, ReservedNumbers(r, buyer, q), buyer, r.price))]
  {
  }

  lemma PurchaseBooksExactly(b: Books, i: nat, buyer: nat, seller: nat, bill: Bill)
    requires buyer < |b.wallets| && seller < |b.wallets|
    ensures PurchaseBooks(b, i, buyer, seller, bill).Success? <==>
            0 < bill.charge <= b.wallets[buyer].credit && 0 < bill.sellerNet
    ensures PurchaseBooks(b, i, buyer, seller, bill).Success? && buyer != seller ==>
              var after := PurchaseBooks(b, i, buyer, seller, bill).value;
              && |after.wallets| == |b.wallets|
              && after.wallets[buyer].credit == b.wallets[buyer].credit - bill.charge
              && after.wallets[seller].payable == b.wallets[seller].payable + bill.sellerNet
  {
  }

  // ----- Refunds need the gross amount in the seller's payable balance -----

  /** Cancelling an active raffle with its refunds works exactly when the seller's payable covers the gross total. */
  lemma CancellationNeedsGross(d: Db, i: nat)
    requires Inv(d) && i < |d.raffles| && d.raffles[i].status == Active
    ensures var r := d.raffles[i];
            CancelAndRefund(d, i).error.None? <==> PaidTotal(r.tickets) <= d.books.wallets[r.seller].payable
    ensures CancelAndRefund(d, i).error.None? ==>
              && |CancelAndRefund(d, i).db.raffles| == |d.raffles|
              && CancelAndRefund(d, i).db.raffles[i].status == Cancelled
              && AllRefunded(CancelAndRefund(d, i).db.raffles[i].tickets)
    ensures CancelAndRefund(d, i).error.Some? ==> CancelAndRefund(d, i).db == d
  {
    RowOf(d, i);
    var r := d.raffles[i];
    assert RowKnown(r, |d.books.wallets|);
    RefundAllExactly(d.books, i, r.seller, r.tickets);
    if RefundTickets(d, i).error.None? {
      CancelResult(d, i);
      MarkAllSums(r.tickets, AllPaid(r.tickets), 0);
    }
  }

  lemma {:induction false} BuyersCanBeCredited(b: Books, i: nat, tickets: seq<Ticket>, buyers: seq<nat>)
    requires forall k :: 0 <= k < |buyers| ==> buyers[k] < |b.wallets| && PaidBy(tickets, buyers[k]) > 0
    ensures RefundBuyers(b, i, tickets, buyers).Success?
    ensures var after := RefundBuyers(b, i, tickets, buyers).value;
            |after.wallets| == |b.wallets| && forall u :: 0 <= u < |b.wallets| ==> after.wallets[u].payable == b.wallets[u].payable
  {
    if |buyers| > 0 {
      BuyersCanBeCredited(b, i, tickets, buyers[..|buyers| - 1]);
    }
  }

  lemma {:induction false} PaidBuyersPaid(tickets: seq<Ticket>, users: nat)
    requires forall k :: 0 <= k < |tickets| ==> tickets[k].buyer < users && tickets[k].price > 0
    ensures forall k :: 0 <= k < |PaidBuyers(tickets)| ==> PaidBuyers(tickets)[k] < users && PaidBy(tickets, PaidBuyers(tickets)[k]) > 0
  {
    if |tickets| > 0 {
      PaidBuyersPaid(tickets[..|tickets| - 1], users);
    }
  }

  lemma {:induction false} RefundAllExactly(b: Books, i: nat, seller: nat, tickets: seq<Ticket>)
    requires seller < |b.wallets| && b.wallets[seller].payable >= 0
    requires forall k :: 0 <= k < |tickets| ==> tickets[k].buyer < |b.wallets| && tickets[k].price > 0
    ensures RefundAllBooks(b, i, seller, tickets).Success? <==> PaidTotal(tickets) <= b.wallets[seller].payable
  {
    PaidBuyersPaid(tickets, |b.wallets|);
    BuyersCanBeCredited(b, i, tickets, PaidBuyers(tickets));
  }

  /**
   A seller whose payable is below the gross total, such as one who earned nothing but the net amount of
   this raffle, blocks the refund: the expiry task leaves the raffle active and every ticket paid.
   */
  lemma FeeBlocksCancellation(d: Db, i: nat, pick: nat, now: Time, fault: Fault)
    requires Inv(d) && i < |d.raffles|
    requires var r := d.raffles[i];
             && r.status == Active && !SoldEnough(r)
             && d.books.wallets[r.seller].payable < PaidTotal(r.tickets)
    ensures ProcessExpired(d, i, pick, now, fault).db == d
  {
    CancellationNeedsGross(d, i);
  }

  /** A dispute refund works exactly within the paid amount plus a cent, with a ticket left, and enough payable. */
  lemma DisputeRefundExactly(d: Db, i: nat, cents: int)
    requires Inv(d) && i < |d.raffles| && DisputeActive(d.raffles[i]) && cents > 0
    ensures var r := d.raffles[i];
            var buyer := r.dispute.value.reporter;
            DisputeRefund(d, i, buyer, cents).error.None? <==>
            && ActiveCount(r.tickets, buyer) > 0
            && cents <= PaidBy(r.tickets, buyer) + 1
            && cents <= d.books.wallets[r.seller].payable
    ensures DisputeRefund(d, i, d.raffles[i].dispute.value.reporter, cents).error.Some? ==>
              DisputeRefund(d, i, d.raffles[i].dispute.value.reporter, cents).db == d
  {
    RowOf(d, i);
    assert RowKnown(d.raffles[i], |d.books.wallets|);
  }

  /** The fifteen-day refund: everything the buyer paid, every ticket marked, or nothing at all. */
  lemma TimeoutRefundsEverything(d: Db, i: nat, now: Time)
    requires Inv(d) && i < |d.raffles| && TimesOut(d.raffles[i], now)
    ensures var r := d.raffles[i];
            var buyer := r.dispute.value.reporter;
            && (AutoRefund(d, i, now).error.None? <==>
                  0 < PaidBy(r.tickets, buyer) <= d.books.wallets[r.seller].payable)
            && (AutoRefund(d, i, now).error.Some? ==> AutoRefund(d, i, now).db == d)
    ensures AutoRefund(d, i, now).error.None? ==>
              var buyer := d.raffles[i].dispute.value.reporter;
              && |AutoRefund(d, i, now).db.raffles| == |d.raffles|
              && var s := AutoRefund(d, i, now).db.raffles[i];
              && ActiveCount(s.tickets, buyer) == 0
              && s.dispute.Some? && s.dispute.value.status == DisputeStatus.Resolved(ForBuyer)
              && s.dispute.value.refund == PaidBy(d.raffles[i].tickets, buyer)
  {
    var r := d.raffles[i];
    var buyer := r.dispute.value.reporter;
    var paid := PaidBy(r.tickets, buyer);
    RoundRespectsBounds(paid as real, paid);
    RoundRespectsBounds(0.0, 0);
    assert paid > 0 ==> SplitAmounts(ForBuyer, paid, Some(paid as real), Some(0.0)) == Success(Split(paid, 0));
    if paid > 0 {
      DisputeRefundExactly(d, i, paid);
      PaidNeedsTicket(r.tickets, buyer);
      if AutoRefund(d, i, now).error.None? {
        ResolveResult(d, i, ForBuyer, Some(paid as real), Some(0.0), now);
        FullRefundMarksAll(d, i, buyer);
      }
    }
  }

  lemma {:induction false} PaidNeedsTicket(tickets: seq<Ticket>, b: nat)
    ensures PaidBy(tickets, b) > 0 ==> ActiveCount(tickets, b) > 0
  {
    if |tickets| > 0 {
      PaidNeedsTicket(tickets[..|tickets| - 1], b);
    }
  }

  lemma FullRefundMarksAll(d: Db, i: nat, buyer: nat)
    requires Inv(d) && i < |d.raffles|
    ensures var r := d.raffles[i];
            ActiveCount(Marked(r.tickets, Members(RefundedPositions(r.tickets, buyer, PaidBy(r.tickets, buyer)))), buyer) == 0
  {
    RowOf(d, i);
    var tickets := d.raffles[i].tickets;
    var positions := PaidPositions(tickets, buyer);
    PaidPositionsValid(tickets, buyer);
    PricesAddUp(tickets, buyer);
    FullRefundCoversAll(Prices(tickets, positions), PaidBy(tickets, buyer));
    assert RefundedPositions(tickets, buyer, PaidBy(tickets, buyer)) == positions;
    AllMarkedNoneActive(tickets, buyer, Members(positions));
  }

  /** The prices of a buyer's paid tickets add up to what the buyer paid. */
  lemma {:induction false} PricesAddUp(tickets: seq<Ticket>, buyer: nat)
    requires forall k :: 0 <= k < |PaidPositions(tickets, buyer)| ==> PaidPositions(tickets, buyer)[k] < |tickets|
    ensures Total(Prices(tickets, PaidPositions(tickets, buyer))) == PaidBy(tickets, buyer)
  {
    if |tickets| > 0 {
      var last := |tickets| - 1;
      PaidPositionsValid(tickets[..last], buyer);
      PricesAddUp(tickets[..last], buyer);
      var before := Prices(tickets[..last], PaidPositions(tickets[..last], buyer));
      if tickets[last].buyer == buyer && !tickets[last].refunded {
        assert Prices(tickets, PaidPositions(tickets, buyer)) == before + [tickets[last].price];
        TotalOneMore(before, tickets[last].price);
      } else {
        assert Prices(tickets, PaidPositions(tickets, buyer)) == before;
      }
    }
  }

  lemma {:induction false} TotalOneMore(prices: seq<nat>, p: nat)
    ensures Total(prices + [p]) == Total(prices) + p
  {
    if |prices| > 0 {
      assert (prices + [p])[1..] == prices[1..] + [p];
      TotalOneMore(prices[1..], p);
    }
  }

  lemma {:induction false} AllMarkedNoneActive(tickets: seq<Ticket>, buyer: nat, ids: set<nat>)
    requires forall k: nat :: k < |PaidPositions(tickets, buyer)| ==> PaidPositions(tickets, buyer)[k] in ids
    ensures ActiveCount(Marked(tickets, ids), buyer) == 0
  {
    if |tickets| > 0 {
      var last := |tickets| - 1;
      var positions := PaidPositions(tickets, buyer);
      var before := PaidPositions(tickets[..last], buyer);
      forall k: nat | k < |before| ensures before[k] in ids {
        assert positions[k] == before[k];
      }
      if tickets[last].buyer == buyer && !tickets[last].refunded {
        assert positions[|before|] == last;
      }
      AllMarkedNoneActive(tickets[..last], buyer, ids);
      assert Marked(tickets, ids)[..last] == Marked(tickets[..last], ids);
    }
  }

  // ----- Sellers who win a dispute -----

  /**
   A dispute resolved for the seller confirms the delivery without a date, so the payout is refused
   for ever: it never starts, nothing is ever released, and each attempt fails the same way.
   */
  lemma WinningSellerIsNeverPaid(d: Db, clock: Time, more: seq<Event>, i: nat, now: Time, outcome: Outcome)
    requires Healthy(d, clock) && Chronological(clock, more) && i < |d.raffles|
    requires d.raffles[i].dispute.Some? && d.raffles[i].dispute.value.status == DisputeStatus.Resolved(ForSeller)
    ensures NeverPaid(Run(d, more), i)
    ensures ReleaseHold(Run(d, more).raffles[i], now) == Some(NoConfirmationDate)
    ensures ProcessPayout(Run(d, more), i, now, outcome).error.Some?
    ensures ProcessPayout(Run(d, more), i, now, outcome).db == Run(d, more)
  {
    RowThen(d, clock, more, i);
  }

  /** The provider is asked exactly when the payout is pending and nothing holds it back; otherwise nothing changes. */
  lemma AttemptedExactlyWhenReleasable(d: Db, i: nat, now: Time, outcome: Outcome)
    requires Inv(d) && i < |d.raffles| && d.raffles[i].payout.Some?
    ensures var r := d.raffles[i];
            var e := ProcessPayout(d, i, now, outcome).db;
            && |e.raffles| == |d.raffles|
            && (PayoutStarted(e.raffles[i]) && !PayoutStarted(r) <==>
                  && r.payout.value.status == Pending
                  && r.confirmedAt.Some? && r.confirmedAt.value + PROTECTION_DAYS * DAY <= now)
            && (!(PayoutStarted(e.raffles[i]) && !PayoutStarted(r)) ==> e == d)
  {
    RowOf(d, i);
    if Attemptable(d.raffles[i], now) {
      AttemptCases(d, i, now, outcome);
      if AcceptedDb(d, i).Success? {
        StepsFollow.AcceptedRows(d, i, now);
      }
    }
  }

  // ----- Rejected winners -----

  /** A raffle that was drawn once and has no winner: every further draw is refused. */
  ghost predicate NeverDrawnAgain(d: Db, i: nat) {
    && i < |d.raffles|
    && d.raffles[i].drawResult.Some? && d.raffles[i].winner.None? && d.raffles[i].confirmedAt.None?
    && d.raffles[i].status != Drawn && d.raffles[i].status != InDelivery
    && NeverPaid(d, i)
  }

  lemma DrawnWithoutWinner(d: Db, clock: Time, more: seq<Event>, i: nat)
    requires Healthy(d, clock) && Chronological(clock, more) && i < |d.raffles|
    requires d.raffles[i].drawResult.Some? && d.raffles[i].winner.None?
    ensures NeverDrawnAgain(Run(d, more), i)
  {
    RowThen(d, clock, more, i);
  }

  lemma DrawRefused(d: Db, i: nat, pick: nat, now: Time)
    requires NeverDrawnAgain(d, i)
    ensures Draw(d.raffles[i], pick, now).Failure?
  {
  }

  /** After a winner was rejected every draw is refused for ever, so the raffle is never delivered or paid. */
  lemma RejectedWinnerNeverRedrawn(d: Db, clock: Time, more: seq<Event>, i: nat, pick: nat, now: Time)
    requires Healthy(d, clock) && Chronological(clock, more) && i < |d.raffles|
    requires RejectWinner(d.raffles[i]).Success?
    ensures var e := Run(RejectWinnerStep(d, i).db, more);
            NeverDrawnAgain(e, i) && Draw(e.raffles[i], pick, now).Failure?
  {
    var mid := RejectWinnerStep(d, i).db;
    RejectedIsHealthy(d, clock, i);
    DrawnWithoutWinner(mid, clock, more, i);
    DrawRefused(Run(mid, more), i, pick, now);
  }

  lemma RejectedIsHealthy(d: Db, clock: Time, i: nat)
    requires Healthy(d, clock) && i < |d.raffles| && RejectWinner(d.raffles[i]).Success?
    ensures var mid := RejectWinnerStep(d, i).db;
            && Healthy(mid, clock) && |mid.raffles| == |d.raffles|
            && mid.raffles[i].drawResult.Some? && mid.raffles[i].winner.None?
  {
    RowOf(d, i);
    RejectWinnerStepKeeps(d, i);
    StepsFollow.RejectWinnerFollows(d, i, clock);
  }

  /** A cancelled raffle is not the end: a dispute left open by a rejected winner still finishes it. */
  lemma CancelledCanStillFinish(rate: real, r: Raffle, decision: Decision, split: Split, now: Time)
    requires RowFacts(rate, r) && r.status == Drawn && DisputeActive(r)
    ensures RejectWinner(r).Success? && Cancel(RejectWinner(r).value, r.seller).Success?
    ensures var cancelled := Cancel(RejectWinner(r).value, r.seller).value;
            && cancelled.status == Cancelled && DisputeActive(cancelled)
            && var closed := CloseDispute(cancelled, decision, split, now);
            && closed.status == Finalised && closed.winner.None?
  {
  }

  // ----- Top-ups -----

  /** An approval credits exactly the unprocessed sessions of known users with a positive amount. */
  lemma ApprovalCreditsExactly(d: Db, k: nat, n: Notice, now: Time)
    requires Inv(d) && k < |d.sessions|
    ensures var s := d.sessions[k];
            var e := ApproveSession(d, k, n, now).db;
            && k < |e.sessions|
            && (e != d <==> s.processedAt.None? && n.amount > 0)
            && (e != d ==> e.sessions[k].credited == n.amount && e.sessions[k].status == Approved
                           && e.books.wallets[s.user].credit == d.books.wallets[s.user].credit + n.amount)
  {
    SessionOf(d, k);
    ApproveResult(d, k, n, now);
    if ApproveSession(d, k, n, now).db != d {
      assert |ApproveSession(d, k, n, now).db.txs| == |d.txs| + 1;
    }
  }

  /** A session whose first notice was not an approval is never credited, whatever is approved afterwards. */
  lemma PendingFirstIsNeverCredited(d: Db, clock: Time, more: seq<Event>, k: nat, n: Notice)
    requires Healthy(d, clock) && Chronological(clock, more) && k < |d.sessions|
    requires d.sessions[k].processedAt.None? && Matches(d.sessions[k], n) && n.status != NoticeApproved
    ensures var e := Run(SyncTopUp(d, n, Some(k), clock).db, more);
            && k < |e.sessions| && e.sessions[k].credited == 0
            && Balance(e.books.entries, TopUpCredits(k)) == 0
  {
    SessionOf(d, k);
    SyncTopUpKeeps(d, n, Some(k), clock);
    StepsFollow.SyncTopUpFollows(d, n, Some(k), clock);
    ProcessedSessionsAreFinal(SyncTopUp(d, n, Some(k), clock).db, clock, more, k);
    RunsStayHealthy(SyncTopUp(d, n, Some(k), clock).db, clock, more);
    SessionOf(Run(SyncTopUp(d, n, Some(k), clock).db, more), k);
  }
}
