/** What holds of every run of the market. */
module Theorems {
  import opened DisputeMath
  import opened History
  import opened Journal
  import opened Ledger
  import opened LifecycleKeeps
  import opened Market
  import opened MarketInvariant
  import opened RaffleInvariant
  import opened Raffles
  import opened Runs
  import StepsFollow
  import opened Tickets
  import opened TopUpKeeps
  import opened TopUps
  import opened Wrappers

  /** The row of a raffle now and after some more events, with everything known about both. */
  lemma RowThen(d: Db, clock: Time, more: seq<Event>, i: nat)
    requires Healthy(d, clock) && Chronological(clock, more) && i < |d.raffles|
    ensures var e := Run(d, more);
            && Healthy(e, ClockAfter(clock, more)) && i < |e.raffles| && e.config == d.config
            && Later(d.raffles[i], e.raffles[i])
            && RowFacts(d.config.feeRate, d.raffles[i]) && RowFacts(d.config.feeRate, e.raffles[i])
            && RowBooks(d.books.entries, d.txs, i, d.raffles[i])
            && RowBooks(e.books.entries, e.txs, i, e.raffles[i])
  {
    RunsStayHealthy(d, clock, more);
    RowOf(d, i);
    RowOf(Run(d, more), i);
  }

  // ----- A dispute refund and a payout exclude each other -----

  /** Nothing was or will be paid to the seller: no payout under way, no release, no payment on record. */
  ghost predicate NeverPaid(d: Db, i: nat) {
    && i < |d.raffles|
    && !PayoutStarted(d.raffles[i])
    && d.raffles[i].releasedAt.None?
    && Balance(d.books.entries, PayoutNet(i)) == 0
    && Balance(d.books.entries, PayoutDebits(i)) == 0
    && Sum(d.txs, SellerPayments(i)) == 0
  }

  ghost predicate NeverDisputed(d: Db, i: nat) {
    && i < |d.raffles|
    && d.raffles[i].dispute.None?
    && Balance(d.books.entries, DisputeRefunds(i)) == 0
  }

  /** After a dispute refund the seller is never paid, whatever happens next; and the refund was the only one. */
  lemma RefundedIsNeverPaid(d: Db, clock: Time, more: seq<Event>, i: nat)
    requires Healthy(d, clock) && Chronological(clock, more) && i < |d.raffles|
    requires DisputeRefunded(d.raffles[i])
    ensures NeverPaid(Run(d, more), i)
    ensures Run(d, more).raffles[i].dispute == d.raffles[i].dispute
    ensures Balance(Run(d, more).books.entries, DisputeRefunds(i)) == 1
  {
    RowThen(d, clock, more, i);
  }

  /** Once a payout has left pending, no dispute exists and none was or ever will be refunded. */
  lemma StartedIsNeverDisputed(d: Db, clock: Time, more: seq<Event>, i: nat)
    requires Healthy(d, clock) && Chronological(clock, more) && i < |d.raffles|
    requires PayoutStarted(d.raffles[i])
    ensures NeverDisputed(Run(d, more), i)
    ensures PayoutStarted(Run(d, more).raffles[i])
  {
    RowThen(d, clock, more, i);
  }

  /** In such a state every attempt to open, answer or resolve a dispute is rejected and changes nothing. */
  lemma StartedRefusesDisputes(d: Db, i: nat, user: nat, decision: Decision, refund: Option<real>, seller: Option<real>, now: Time)
    requires Inv(d) && i < |d.raffles| && PayoutStarted(d.raffles[i])
    ensures OpenDisputeStep(d, i, user, now).error.Some? && OpenDisputeStep(d, i, user, now).db == d
    ensures RespondStep(d, i, user, now).error.Some? && RespondStep(d, i, user, now).db == d
    ensures Resolve(d, i, decision, refund, seller, now).error.Some? && Resolve(d, i, decision, refund, seller, now).db == d
  {
    RowOf(d, i);
  }

  /** In any reachable state, of the two ledgers of a raffle at most one has something in it. */
  lemma NeverBothRefundedAndPaid(d: Db, clock: Time, i: nat)
    requires Reached(d, clock)
    ensures Balance(d.books.entries, DisputeRefunds(i)) > 0 ==>
              Sum(d.txs, SellerPayments(i)) == 0 && Balance(d.books.entries, PayoutDebits(i)) == 0
    ensures Balance(d.books.entries, PayoutDebits(i)) > 0 || Sum(d.txs, SellerPayments(i)) > 0 ==>
              Balance(d.books.entries, DisputeRefunds(i)) == 0
  {
    ReachedHealthy(d, clock);
    if i < |d.raffles| {
      RowOf(d, i);
    } else {
      assert RowUnused(d.books.entries, d.txs, i);
    }
  }

  // ----- Payouts -----

  /** A payout leaves pending at most once, ends at most once, and never changes its amount. */
  lemma PayoutsOnlyAdvance(d: Db, clock: Time, more: seq<Event>, i: nat)
    requires Healthy(d, clock) && Chronological(clock, more) && i < |d.raffles|
    requires d.raffles[i].payout.Some?
    ensures var e := Run(d, more);
            var p := d.raffles[i].payout.value;
            && i < |e.raffles| && e.raffles[i].payout.Some?
            && var q := e.raffles[i].payout.value;
            && q.net == p.net
            && (p.status != Pending ==> q.status != Pending)
            && (p.status == Completed || p.status == Failed ==> q.status == p.status)
  {
    RowThen(d, clock, more, i);
  }

  /**
   The net effect of a payout on the seller's payable balance is minus its net amount exactly while it
   is under way or completed, and nothing otherwise, with at most one debit in the whole history.
   */
  lemma PayoutEffect(d: Db, clock: Time, i: nat)
    requires Reached(d, clock) && i < |d.raffles| && d.raffles[i].payout.Some?
    ensures var p := d.raffles[i].payout.value;
            Balance(d.books.entries, PayoutNet(i))
            == if p.status == Processing || p.status == Completed then -p.net else 0
    ensures 0 <= Balance(d.books.entries, PayoutDebits(i)) <= 1
    ensures PayoutCommitted(d.raffles[i]) ==> HasPayoutDebit(d.books.entries, i)
    ensures !PayoutStarted(d.raffles[i]) ==> !HasPayoutDebit(d.books.entries, i)
  {
    ReachedHealthy(d, clock);
    RowOf(d, i);
    DebitExists(d.books.entries, i);
  }

  /** The weekly release never finds a payout that already failed: it never puts one back to pending. */
  lemma ReleaseNeverReopens(d: Db, clock: Time, i: nat, now: Time)
    requires Reached(d, clock) && i < |d.raffles| && AutoReleases(d.raffles[i], now)
    ensures !PayoutStarted(d.raffles[i]) && !HasPayoutDebit(d.books.entries, i)
  {
    ReachedHealthy(d, clock);
    RowOf(d, i);
    DebitExists(d.books.entries, i);
  }

  /** Money was released: confirmed, finished, paid exactly once, and not before the protection week was over. */
  ghost predicate ReleasedProperly(d: Db, i: nat) {
    && i < |d.raffles|
    && var r := d.raffles[i];
    && r.releasedAt.Some?
    && r.delivery == Confirmed && r.status == Finalised
    && r.payout.Some? && r.payout.value.status == Completed
    && r.confirmedAt.Some? && r.confirmedAt.value + PROTECTION_DAYS * DAY <= r.releasedAt.value
    && r.dispute.None?
    && Sum(d.txs, SellerPayments(i)) == 1
    && Sum(d.txs, SellerPaid(i)) == r.payout.value.net
    && Balance(d.books.entries, PayoutNet(i)) == -r.payout.value.net
  }

  /** A release happened properly and stays exactly as it is, for ever. */
  lemma ReleasesArePermanent(d: Db, clock: Time, more: seq<Event>, i: nat)
    requires Healthy(d, clock) && Chronological(clock, more) && i < |d.raffles|
    requires d.raffles[i].releasedAt.Some?
    ensures ReleasedProperly(d, i) && ReleasedProperly(Run(d, more), i)
    ensures var r, s := d.raffles[i], Run(d, more).raffles[i];
            s.releasedAt == r.releasedAt && s.confirmedAt == r.confirmedAt && s.payout.value.net == r.payout.value.net
  {
    RowThen(d, clock, more, i);
  }

  /** The seller is paid what the paid tickets are worth less the platform's rate. */
  lemma PaidWhatTheTicketsAreWorth(d: Db, clock: Time, i: nat)
    requires Reached(d, clock) && i < |d.raffles| && d.raffles[i].releasedAt.Some?
    ensures Sum(d.txs, SellerPaid(i)) == NetOf(d.config.feeRate, PaidTotal(d.raffles[i].tickets))
  {
    ReachedHealthy(d, clock);
    RowOf(d, i);
  }

  // ----- Money -----

  /**
   All the money in wallets is what top-ups brought less their refunds, less what purchases left with
   the platform, less payouts under way or done. Dispute refunds and cancellations do not appear.
   */
  lemma MoneyIsConserved(d: Db, clock: Time)
    requires Reached(d, clock)
    ensures TotalMoney(d.books.wallets)
         == TotalLoaded(d.sessions) - Sum(d.txs, PlatformKept) - TotalHeld(d.raffles)
  {
    ReachedHealthy(d, clock);
  }

  /** Every balance is the fold of its ledger entries, is never negative, and was stamped correctly each time. */
  lemma BalancesAreFolds(d: Db, clock: Time)
    requires Reached(d, clock)
    ensures Balanced(d.books) && Stamped(d.books.entries)
  {
    ReachedHealthy(d, clock);
  }

  /**
   What one buyer was given back for one raffle: the price of the refunded tickets, or the amount of the
   dispute resolution, which exceeds what was paid by one cent at the very most.
   */
  lemma RefundsWithinPurchases(d: Db, clock: Time, i: nat, buyer: nat)
    requires Reached(d, clock) && i < |d.raffles|
    ensures var refunded := Balance(d.books.entries, RefundTo(i, buyer));
            var r := d.raffles[i];
            && 0 <= refunded <= BoughtBy(r.tickets, buyer) + 1
            && (!DisputeRefunded(r) ==> refunded == RefundedBy(r.tickets, buyer) <= BoughtBy(r.tickets, buyer))
            && (DisputeRefunded(r) && r.dispute.value.reporter != buyer ==> refunded == 0)
  {
    ReachedHealthy(d, clock);
    RowOf(d, i);
    BoughtIsPaidPlusRefunded(d.raffles[i].tickets, buyer);
  }

  /** No two tickets of a raffle share a number, all numbers exist, and nobody holds more than half. */
  lemma TicketsWithinLimits(d: Db, clock: Time, i: nat)
    requires Reached(d, clock) && i < |d.raffles|
    ensures WithinLimits(d.raffles[i].tickets, d.raffles[i].total)
  {
    ReachedHealthy(d, clock);
    RowOf(d, i);
  }

  // ----- Top-ups -----

  /** One credit and one load at most, both of the credited amount; one refund at most, within the credit. */
  lemma TopUpsCreditedOnce(d: Db, clock: Time, k: nat)
    requires Reached(d, clock) && k < |d.sessions|
    ensures var s := d.sessions[k];
            var n := if s.credited > 0 then 1 else 0;
            && Balance(d.books.entries, TopUpCredits(k)) == Sum(d.txs, Loads(k)) == n
            && Balance(d.books.entries, TopUpCredit(k)) == Sum(d.txs, Loaded(k)) == s.credited
            && 0 <= Balance(d.books.entries, TopUpRefunds(k)) <= n
            && -s.credited <= Balance(d.books.entries, TopUpRefund(k)) == -s.refunded <= 0
  {
    ReachedHealthy(d, clock);
    SessionOf(d, k);
  }

  /** A processed session keeps its credit for ever, and once it is no longer approved it is never refundable again. */
  lemma ProcessedSessionsAreFinal(d: Db, clock: Time, more: seq<Event>, k: nat)
    requires Healthy(d, clock) && Chronological(clock, more) && k < |d.sessions|
    requires d.sessions[k].processedAt.Some?
    ensures var e := Run(d, more);
            var s := d.sessions[k];
            && k < |e.sessions|
            && var t := e.sessions[k];
            && t.credited == s.credited
            && Balance(e.books.entries, TopUpCredit(k)) == s.credited
            && Sum(e.txs, Loads(k)) == Sum(d.txs, Loads(k))
            && (s.status != Approved ==> t.status != Approved)
            && (s.refunded > 0 ==> t.refunded == s.refunded && t.status != Approved)
  {
    RunsStayHealthy(d, clock, more);
    SessionOf(d, k);
    SessionOf(Run(d, more), k);
    assert SessionLater(d.sessions[k], Run(d, more).sessions[k]);
  }

  /** A webhook that was accepted once is ignored from then on, whatever its repetition claims. */
  lemma RepeatedWebhookIgnored(d: Db, clock: Time, kind: nat, n: Notice, found: Option<nat>, more: seq<Event>,
                               again: Notice, foundAgain: Option<nat>, later: Time)
    requires Healthy(d, clock) && Chronological(clock, more)
    requires Webhook(d, kind, n, found, clock).error.None? && again.paymentId == n.paymentId
    ensures var e := Run(Webhook(d, kind, n, found, clock).db, more);
            Webhook(e, kind, again, foundAgain, later) == Ok(e)
  {
    WebhookKeeps(d, kind, n, found, clock);
    StepsFollow.WebhookFollows(d, kind, n, found, clock);
    var mid := Webhook(d, kind, n, found, clock).db;
    assert WebhookEvent(kind, n.paymentId) in mid.providerEvents;
    RunsStayHealthy(mid, clock, more);
  }

}
