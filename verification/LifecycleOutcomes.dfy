/**
 When each call of the lifecycle is accepted and what it writes, read off reachable rows: on those, the
 guards of the services come down to simpler conditions.
 */
module LifecycleOutcomes {
  import DrawOutcomes
  import opened ExactConditions
  import opened LifecycleKeeps
  import opened Market
  import opened MarketInvariant
  import PayoutKeeps
  import opened RaffleInvariant
  import opened Raffles
  import Rounding
  import opened Tickets
  import opened Wrappers

  /** The call was accepted exactly under this condition, and then row i became s; otherwise nothing changed. */
  ghost predicate Exactly(d: Db, a: Reply, i: nat, accepted: bool, s: Raffle)
    requires i < |d.raffles|
  {
    && (a.error.None? <==> accepted)
    && a.db == (if accepted then d.(raffles := d.raffles[i := s]) else d)
  }

  // ----- Selling -----

  /** A new raffle of a known seller, with enough tickets and a price, is offered as asked, at the end of the table. */
  lemma PublishedExactly(d: Db, seller: nat, total: nat, price: nat, deadline: Time)
    ensures var a := CreateRaffle(d, seller, total, price, deadline);
            && (a.error.None? <==> seller < |d.books.wallets| && total >= 10 && price > 0)
            && (a.error.Some? ==> a.db == d)
            && (a.error.None? ==>
                  && |a.db.raffles| == |d.raffles| + 1 && a.db.raffles[..|d.raffles|] == d.raffles
                  && var s := a.db.raffles[|d.raffles|];
                  && s.seller == seller && s.total == total && s.price == price && s.deadline == deadline
                  && s.status == Active && !s.hidden && s.tickets == [] && s.delivery == NotShipped
                  && s.winner.None? && s.dispute.None? && s.payout.None?)
  {
  }

  /** A relaunch offers the tickets of a cancelled raffle of the same seller again and leaves the old row alone. */
  lemma RelaunchedExactly(d: Db, i: nat, user: nat, price: nat, deadline: Time)
    requires Inv(d) && i < |d.raffles|
    ensures var a := Relaunch(d, i, user, price, deadline);
            var r := d.raffles[i];
            && (a.error.None? <==> r.seller == user && r.status == RaffleStatus.Cancelled && r.total >= 10 && price > 0)
            && (a.error.Some? ==> a.db == d)
            && (a.error.None? ==>
                  && |a.db.raffles| == |d.raffles| + 1 && a.db.raffles[..|d.raffles|] == d.raffles
                  && var s := a.db.raffles[|d.raffles|];
                  && s.seller == user && s.total == r.total && s.price == price && s.deadline == deadline
                  && s.status == Active && s.tickets == [])
  {
    RowOf(d, i);
    PublishedExactly(d, user, d.raffles[i].total, price, deadline);
  }

  /** Only the seller changes price or deadline, only while the raffle is active, and a deadline only moves later; hiding does nothing else. */
  lemma RepricedExactly(d: Db, i: nat, user: nat, price: nat, deadline: Time, hidden: bool, now: Time)
    requires i < |d.raffles|
    ensures var r := d.raffles[i];
            && Exactly(d, UpdatePrice(d, i, user, price), i,
                       r.seller == user && r.status == Active && price > 0, r.(price := price))
            && Exactly(d, ExtendDeadline(d, i, user, deadline, now), i,
                       r.seller == user && r.status == Active && now < deadline && r.deadline < deadline, r.(deadline := deadline))
            && Exactly(d, SetHidden(d, i, hidden), i, true, r.(hidden := hidden))
  {
  }

  // ----- Delivery -----

  /** The seller cancels an active raffle; tickets and money stay as they are. */
  lemma CancelledExactly(d: Db, i: nat, user: nat)
    requires i < |d.raffles|
    ensures var r := d.raffles[i];
            Exactly(d, CancelStep(d, i, user), i, r.seller == user && r.status == Active, r.(status := RaffleStatus.Cancelled))
  {
  }

  /** The seller ships exactly a drawn raffle without a dispute. */
  lemma ShippedExactly(d: Db, i: nat, user: nat, now: Time)
    requires Inv(d) && i < |d.raffles|
    ensures var r := d.raffles[i];
            Exactly(d, ShipStep(d, i, user, now), i, r.seller == user && r.status == Drawn && r.dispute.None?,
                    r.(status := InDelivery, delivery := Shipped, shippedAt := Some(now)))
  {
    RowOf(d, i);
  }

  /** A winner is rejected exactly on a drawn raffle, which is then active again, without winner and date but with its draw on record. */
  lemma RejectedExactly(d: Db, i: nat)
    requires Inv(d) && i < |d.raffles|
    ensures var r := d.raffles[i];
            Exactly(d, RejectWinnerStep(d, i), i, r.status == Drawn, r.(status := Active, winner := None, drawnAt := None))
  {
    RowOf(d, i);
  }

  // ----- Disputes -----

  /** The winner can open the one dispute of a raffle exactly until the delivery is confirmed. */
  lemma DisputedExactly(d: Db, i: nat, user: nat, now: Time)
    requires Inv(d) && i < |d.raffles|
    ensures var r := d.raffles[i];
            Exactly(d, OpenDisputeStep(d, i, user, now), i,
                    r.winner == Some(user) && r.dispute.None? && r.confirmedAt.None?,
                    r.(delivery := Disputed, dispute := Some(Dispute(user, Open, 0, 0, now, None, None))))
  {
    RowOf(d, i);
  }

  /** The seller answers once: exactly while the dispute is as it was opened; then it is in mediation, answered now. */
  lemma AnsweredExactly(d: Db, i: nat, user: nat, now: Time)
    requires Inv(d) && i < |d.raffles| && d.raffles[i].dispute.Some?
    ensures var r := d.raffles[i];
            Exactly(d, RespondStep(d, i, user, now), i,
                    r.seller == user && r.dispute.value.status == Open,
                    r.(dispute := Some(r.dispute.value.(status := InMediation, respondedAt := Some(now)))))
  {
    RowOf(d, i);
  }

  /** The escalation takes a dispute that has waited forty-eight hours for the seller's answer to mediation, and nothing else. */
  lemma EscalatedExactly(r: Raffle, now: Time)
    ensures var waited := r.dispute.Some? && r.dispute.value.status == AwaitingSeller && r.dispute.value.respondedAt.None?
                          && r.dispute.value.openedAt + 48 * 3_600_000 <= now;
            Escalate(r, now) == if waited then r.(dispute := Some(r.dispute.value.(status := InMediation))) else r
  {
  }

  /** A dispute times out exactly when it is active and fifteen days old. */
  lemma TimesOutExactly(d: Db, i: nat, now: Time)
    requires Inv(d) && i < |d.raffles|
    ensures TimesOut(d.raffles[i], now) <==>
            DisputeActive(d.raffles[i]) && d.raffles[i].dispute.value.openedAt + 15 * DAY <= now
  {
    RowOf(d, i);
  }

  // ----- Expiry and the weekly release -----

  lemma AtLeastSeventy(paid: nat, total: nat)
    requires total > 0
    ensures 10 * paid >= 7 * total <==> paid as real / total as real >= 0.7
  {
    var p, t := paid as real, total as real;
    assert 10.0 * p == (10 * paid) as real && 7.0 * t == (7 * total) as real;
    assert p / t * t == p;
    Rounding.ScaleOrder(0.7, p / t, t);
  }

  /** Enough is sold exactly when the paid tickets are at least seventy percent of all. */
  lemma SeventyPercent(r: Raffle)
    requires r.total > 0
    ensures SoldEnough(r) <==> PaidCount(r.tickets) as real / r.total as real >= 0.7
  {
    AtLeastSeventy(PaidCount(r.tickets), r.total);
  }

  /** Below seventy percent at the deadline. */
  predicate Undersold(r: Raffle)
    requires r.total > 0
  {
    (PaidCount(r.tickets) as real / r.total as real) < 0.7
  }

  /**
   At the deadline an active raffle with at least seventy percent sold is drawn if it never was; with less it
   is cancelled and refunded exactly when the seller can pay the refunds. Before the deadline nothing happens.
   */
  lemma ExpiryDecides(d: Db, i: nat, pick: nat, now: Time, fault: Fault)
    requires Inv(d) && i < |d.raffles| && d.raffles[i].status == Active
    requires pick < |d.raffles[i].tickets| && !d.raffles[i].tickets[pick].refunded && d.raffles[i].drawResult.None?
    ensures d.raffles[i].total > 0 && d.raffles[i].seller < |d.books.wallets|
    ensures var r := d.raffles[i];
            var e := ProcessExpired(d, i, pick, now, fault).db;
            && |e.raffles| == |d.raffles|
            && (r.deadline >= now ==> e == d)
            && (r.deadline < now && !Undersold(r) ==>
                  e.raffles[i].status == Drawn && e.raffles[i].winner == Some(r.tickets[pick].buyer) && e.books == d.books)
            && (r.deadline < now && Undersold(r) ==>
                  if PaidTotal(r.tickets) <= d.books.wallets[r.seller].payable
                  then e.raffles[i].status == RaffleStatus.Cancelled && AllRefunded(e.raffles[i].tickets)
                  else e == d)
  {
    RowOf(d, i);
    SeventyPercent(d.raffles[i]);
    DrawOutcomes.DrawExactly(d.config.feeRate, d.raffles[i], pick, now);
    if d.raffles[i].deadline < now && !SoldEnough(d.raffles[i]) {
      CancellationNeedsGross(d, i);
    }
  }

  /** A sold-out raffle that was never drawn is drawn by the next round, whatever its deadline. */
  lemma SoldOutIsDrawn(d: Db, i: nat, pick: nat, now: Time, fault: Fault)
    requires Inv(d) && i < |d.raffles| && d.raffles[i].status == SoldOut && d.raffles[i].drawResult.None?
    requires pick < |d.raffles[i].tickets| && !d.raffles[i].tickets[pick].refunded
    ensures var r := d.raffles[i];
            var e := ProcessExpired(d, i, pick, now, fault).db;
            && |e.raffles| == |d.raffles| && e.books == d.books
            && DrawOutcomes.WonBy(r, e.raffles[i].(payout := r.payout), pick, now)
  {
    RowOf(d, i);
    DrawOutcomes.DrawExactly(d.config.feeRate, d.raffles[i], pick, now);
  }

  /** The weekly release applies exactly to raffles drawn a week ago that nobody shipped or disputed. */
  lemma ReleasesExactly(d: Db, i: nat, now: Time)
    requires Inv(d) && i < |d.raffles|
    ensures var r := d.raffles[i];
            AutoReleases(r, now) <==>
            r.status == Drawn && r.drawnAt.Some? && r.drawnAt.value + 7 * DAY <= now && r.dispute.None?
  {
    RowOf(d, i);
  }

  /** Such a raffle is confirmed now, in delivery, and its payout is dated now; no money moves. */
  lemma ReleaseWrites(d: Db, i: nat, now: Time, outcome: Outcome)
    requires Inv(d) && i < |d.raffles| && AutoReleases(d.raffles[i], now)
    ensures var r := d.raffles[i];
            var e := AutoRelease(d, i, now, outcome).db;
            && e.books == d.books && e.txs == d.txs && |e.raffles| == |d.raffles|
            && var s := e.raffles[i];
            && s == r.(delivery := Confirmed, confirmedAt := Some(now), status := InDelivery, payout := s.payout)
            && s.payout.Some? && s.payout.value.status == Pending && s.payout.value.scheduledFor == Some(now)
  {
    RowOf(d, i);
    PayoutKeeps.AutoReleaseResult(d, i, now, outcome);
  }
}
