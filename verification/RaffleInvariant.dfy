/**
 What holds of every raffle row the services can produce. Each service guards on a different mix of
 fields; these facts are what makes the guards add up.
 */
module RaffleInvariant {
  import opened DisputeMath
  import opened Raffles
  import opened Tickets
  import opened Wrappers

  ghost predicate DeliveryFacts(r: Raffle) {
    && r.delivery != Delivered
    && (r.delivery == NotShipped ==> r.dispute.None?)
    && (r.delivery == Shipped ==> r.status == InDelivery && r.dispute.None?)
    && (r.delivery == Disputed ==> r.dispute.Some?)
    && (r.delivery == Confirmed ==> r.status == InDelivery || r.status == Finalised)
    && (r.confirmedAt.Some? ==> r.delivery == Confirmed && r.dispute.None?)
    && (r.delivery == Confirmed && r.dispute.None? ==> r.confirmedAt.Some?)
  }

  ghost predicate DrawFacts(r: Raffle) {
    && (r.status == Drawn ==> r.winner.Some? && (r.delivery == NotShipped || r.delivery == Disputed))
    && (r.status == InDelivery ==> r.winner.Some? && r.delivery != NotShipped)
    && (r.confirmedAt.Some? ==> r.winner.Some?)
    && (r.winner.Some? ==> r.drawResult.Some? && (r.status == Drawn || r.status == InDelivery || r.status == Finalised))
    && (r.drawResult.Some? ==> r.drawResult.value < |r.tickets|)
    && (r.winner.Some? ==> r.winner == Some(r.tickets[r.drawResult.value].buyer))
    && (r.status == Finalised ==> r.releasedAt.Some? || (r.dispute.Some? && r.dispute.value.status.Resolved?))
  }

  ghost predicate DisputeFacts(r: Raffle) {
    r.dispute.Some? ==>
      var d := r.dispute.value;
      && d.status != AwaitingSeller
      && d.refund >= 0
      && d.refund <= BoughtBy(r.tickets, d.reporter) + 1
      && (d.status.Resolved? <==> d.resolvedAt.Some?)
      && (d.status.Resolved? ==>
            && r.status == Finalised
            && r.delivery == (if d.status.decision == ForSeller then Confirmed else Disputed)
            && (d.status.decision == ForSeller ==> d.refund == 0))
      && (!d.status.Resolved? ==> r.delivery == Disputed && d.refund == 0)
      && r.drawResult.Some?
  }

  ghost predicate PayoutFacts(rate: real, r: Raffle) {
    && (r.releasedAt.Some? ==>
          && r.payout.Some? && r.payout.value.status == Completed
          && r.status == Finalised
          && r.confirmedAt.Some? && r.confirmedAt.value + PROTECTION_DAYS * DAY <= r.releasedAt.value)
    && (r.payout.Some? ==>
          var p := r.payout.value;
          && r.drawResult.Some?
          && (p.status != Pending ==> r.confirmedAt.Some?)
          && (p.status == Completed <==> r.releasedAt.Some?)
          && (p.status == Processing ==> p.accepted)
          && (p.status == Processing || p.status == Completed ==> p.net > 0)
          && (r.winner.Some? && r.dispute.None? ==> p.net == NetOf(rate, PaidTotal(r.tickets))))
  }

  /** Once a ticket was refunded outside a dispute, every ticket was, and nothing more is sold or refunded. */
  ghost predicate RefundFacts(r: Raffle) {
    && (forall k :: 0 <= k < |r.tickets| && r.tickets[k].refunded && !DisputeRefunded(r) ==>
          (r.status == Cancelled || r.status == Finalised) && AllRefunded(r.tickets))
    && (DisputeRefunded(r) ==> r.status == Finalised)
  }

  ghost predicate AllRefunded(tickets: seq<Ticket>) {
    forall k :: 0 <= k < |tickets| ==> tickets[k].refunded
  }

  ghost predicate RowFacts(rate: real, r: Raffle) {
    && r.price > 0 && r.total > 0
    && DeliveryFacts(r)
    && DrawFacts(r)
    && DisputeFacts(r)
    && PayoutFacts(rate, r)
    && RefundFacts(r)
    && WithinLimits(r.tickets, r.total)
  }

  lemma CreatedFacts(rate: real, seller: nat, total: nat, price: nat, deadline: Time)
    requires price > 0 && total > 0
    ensures RowFacts(rate, Created(seller, total, price, deadline))
  {
  }

  lemma {:induction false} UndisputedRefundsAreTotal(r: Raffle, b: nat)
    requires RefundFacts(r) && !DisputeRefunded(r) && PaidCount(r.tickets) > 0
    ensures RefundedBy(r.tickets, b) == 0
  {
    NoRefunds(r.tickets, b) by {
      forall k | 0 <= k < |r.tickets| ensures !r.tickets[k].refunded {
        if r.tickets[k].refunded {
          AllRefundedMeansNonePaid(r.tickets);
        }
      }
    }
  }

  lemma {:induction false} NoRefunds(tickets: seq<Ticket>, b: nat)
    requires forall k :: 0 <= k < |tickets| ==> !tickets[k].refunded
    ensures RefundedBy(tickets, b) == 0
  {
    if |tickets| > 0 {
      NoRefunds(tickets[..|tickets| - 1], b);
    }
  }

  lemma {:induction false} AllRefundedMeansNonePaid(tickets: seq<Ticket>)
    requires AllRefunded(tickets)
    ensures PaidCount(tickets) == 0 && PaidTotal(tickets) == 0
    ensures forall b: nat :: PaidBy(tickets, b) == 0 && ActiveCount(tickets, b) == 0
  {
    if |tickets| > 0 {
      AllRefundedMeansNonePaid(tickets[..|tickets| - 1]);
    }
  }

  // ----- Every lifecycle step keeps the facts -----

  lemma DrawKeeps(rate: real, r: Raffle, pick: nat, now: Time)
    requires RowFacts(rate, r) && Draw(r, pick, now).Success?
    ensures RowFacts(rate, Draw(r, pick, now).value)
  {
  }

  lemma RejectWinnerKeeps(rate: real, r: Raffle)
    requires RowFacts(rate, r) && RejectWinner(r).Success?
    ensures RowFacts(rate, RejectWinner(r).value)
  {
  }

  lemma CancelKeeps(rate: real, r: Raffle, user: nat)
    requires RowFacts(rate, r) && Cancel(r, user).Success?
    ensures RowFacts(rate, Cancel(r, user).value)
  {
  }

  lemma ShipKeeps(rate: real, r: Raffle, user: nat, now: Time)
    requires RowFacts(rate, r) && Ship(r, user, now).Success?
    ensures RowFacts(rate, Ship(r, user, now).value)
  {
  }

  lemma ConfirmKeeps(rate: real, r: Raffle, user: nat, now: Time)
    requires RowFacts(rate, r) && Confirm(r, user, now).Success?
    ensures RowFacts(rate, Confirm(r, user, now).value)
  {
  }

  lemma OpenDisputeKeeps(rate: real, r: Raffle, user: nat, now: Time)
    requires RowFacts(rate, r) && OpenDispute(r, user, now).Success?
    ensures RowFacts(rate, OpenDispute(r, user, now).value)
  {
  }

  lemma RespondKeeps(rate: real, r: Raffle, user: nat, now: Time)
    requires RowFacts(rate, r) && RespondDispute(r, user, now).Success?
    ensures RowFacts(rate, RespondDispute(r, user, now).value)
  {
  }

  lemma AutoConfirmKeeps(rate: real, r: Raffle, now: Time)
    requires RowFacts(rate, r) && AutoReleases(r, now)
    ensures RowFacts(rate, AutoConfirm(r, now)) && r.dispute.None?
  {
  }

  lemma WithPayoutKeeps(rate: real, r: Raffle)
    requires RowFacts(rate, r) && r.drawResult.Some?
    ensures RowFacts(rate, WithPayout(rate, r))
  {
  }

  lemma ScheduledKeeps(rate: real, r: Raffle, at: Time)
    requires RowFacts(rate, r) && r.payout.Some?
    ensures RowFacts(rate, Scheduled(r, at))
  {
  }
}
