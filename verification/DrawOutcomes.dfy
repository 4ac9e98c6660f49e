/** Who wins: the buyer of the ticket that was drawn, and each buyer in proportion to the paid tickets held. */
module DrawOutcomes {
  import opened LifecycleKeeps
  import opened Market
  import opened MarketInvariant
  import opened RaffleInvariant
  import opened Raffles
  import opened Runs
  import opened Tickets
  import opened TicketsService
  import opened Wrappers

  predicate Drawable(r: Raffle) {
    (r.status == Active || r.status == SoldOut) && r.drawResult.None?
  }

  /** The picked paid ticket is on record and its buyer has won; nothing else about the raffle changed. */
  predicate WonBy(r: Raffle, s: Raffle, pick: nat, now: Time) {
    && pick < |r.tickets| && !r.tickets[pick].refunded
    && s.drawResult == Some(pick)
    && s.winner == Some(r.tickets[pick].buyer)
    && s.drawnAt == Some(now) && s.status == Drawn
    && s == r.(status := s.status, winner := s.winner, drawnAt := s.drawnAt, drawResult := s.drawResult)
  }

  lemma {:induction false} PaidTicketCounts(tickets: seq<Ticket>, k: nat)
    requires k < |tickets| && !tickets[k].refunded
    ensures PaidCount(tickets) > 0
  {
    if k < |tickets| - 1 {
      PaidTicketCounts(tickets[..|tickets| - 1], k);
    }
  }

  /** A draw takes place exactly on an open raffle that was never drawn, for a ticket that is paid. */
  lemma DrawExactly(rate: real, r: Raffle, pick: nat, now: Time)
    requires RowFacts(rate, r)
    ensures Draw(r, pick, now).Success? <==> Drawable(r) && pick < |r.tickets| && !r.tickets[pick].refunded
    ensures Draw(r, pick, now).Success? ==> WonBy(r, Draw(r, pick, now).value, pick, now)
  {
    if pick < |r.tickets| && !r.tickets[pick].refunded {
      PaidTicketCounts(r.tickets, pick);
    }
  }

  /** In every reachable state the winner is the buyer of the ticket on record. */
  lemma WinnerBoughtTheDrawnTicket(d: Db, clock: Time, i: nat)
    requires Reached(d, clock) && i < |d.raffles| && d.raffles[i].winner.Some?
    ensures var r := d.raffles[i];
            && r.drawResult.Some? && r.drawResult.value < |r.tickets|
            && r.winner == Some(r.tickets[r.drawResult.value].buyer)
  {
    ReachedHealthy(d, clock);
    RowOf(d, i);
  }

  // ----- Each buyer's chance -----

  function Bit(condition: bool): nat {
    if condition then 1 else 0
  }

  /** The user wins when the random source picks this index among the paid tickets. */
  predicate Wins(r: Raffle, random: nat, user: nat, now: Time) {
    var drawn := Draw(r, PickedTicket(r.tickets, random), now);
    drawn.Success? && drawn.value.winner == Some(user)
  }

  /** How many of the first n random indexes make the user win. */
  function WinningIndexes(r: Raffle, n: nat, user: nat, now: Time): nat {
    if n == 0 then 0 else WinningIndexes(r, n - 1, user, now) + Bit(Wins(r, n - 1, user, now))
  }

  function CountBuyer(tickets: seq<Ticket>, positions: seq<nat>, user: nat): nat {
    if |positions| == 0 then 0
    else
      var last := positions[|positions| - 1];
      CountBuyer(tickets, positions[..|positions| - 1], user) + Bit(last < |tickets| && tickets[last].buyer == user)
  }

  lemma {:induction false} CountBuyerLocal(a: seq<Ticket>, b: seq<Ticket>, positions: seq<nat>, user: nat)
    requires |a| <= |b| && b[..|a|] == a && forall k :: 0 <= k < |positions| ==> positions[k] < |a|
    ensures CountBuyer(a, positions, user) == CountBuyer(b, positions, user)
  {
    if |positions| > 0 {
      CountBuyerLocal(a, b, positions[..|positions| - 1], user);
      var last := positions[|positions| - 1];
      assert b[..|a|][last] == a[last];
    }
  }

  /** Among the paid tickets, those of a user are as many as the tickets that user holds. */
  lemma {:induction false} PaidTicketsOf(tickets: seq<Ticket>, user: nat)
    ensures CountBuyer(tickets, PaidIndexes(tickets), user) == ActiveCount(tickets, user)
  {
    if |tickets| > 0 {
      var last := |tickets| - 1;
      var front := tickets[..last];
      PaidTicketsOf(front, user);
      PaidIndexesAscend(front);
      CountBuyerLocal(front, tickets, PaidIndexes(front), user);
      var all := PaidIndexes(tickets);
      if !tickets[last].refunded {
        assert all[..|all| - 1] == PaidIndexes(front) && all[|all| - 1] == last;
      } else {
        assert all == PaidIndexes(front);
      }
    }
  }

  lemma {:induction false} WinningIndexesCounted(rate: real, r: Raffle, n: nat, user: nat, now: Time)
    requires RowFacts(rate, r) && Drawable(r) && n <= |PaidIndexes(r.tickets)|
    ensures WinningIndexes(r, n, user, now) == CountBuyer(r.tickets, PaidIndexes(r.tickets)[..n], user)
  {
    if n > 0 {
      WinningIndexesCounted(rate, r, n - 1, user, now);
      var positions := PaidIndexes(r.tickets);
      PaidIndexesValid(r.tickets);
      DrawExactly(rate, r, positions[n - 1], now);
      assert PickedTicket(r.tickets, n - 1) == positions[n - 1];
      assert positions[..n][..n - 1] == positions[..n - 1];
    }
  }

  /** Of the equally likely random indexes, a user wins with exactly as many as the paid tickets the user holds. */
  lemma ChancesAreTicketsHeld(rate: real, r: Raffle, user: nat, now: Time)
    requires RowFacts(rate, r) && Drawable(r)
    ensures WinningIndexes(r, PaidCount(r.tickets), user, now) == ActiveCount(r.tickets, user)
  {
    PaidIndexesValid(r.tickets);
    var positions := PaidIndexes(r.tickets);
    WinningIndexesCounted(rate, r, |positions|, user, now);
    assert positions[..|positions|] == positions;
    PaidTicketsOf(r.tickets, user);
  }

  // ----- The calls that draw -----

  /** A draw by an administrator, one by the expiry task or on selling out: the picked ticket's buyer has won. */
  lemma DrawCallsExactly(d: Db, i: nat, pick: nat, now: Time, fault: Fault)
    requires Inv(d) && i < |d.raffles|
    ensures var r := d.raffles[i];
            var a, b := SelectWinner(d, i, pick, now, fault), DrawIfEligible(d, i, pick, now, fault);
            var open := Drawable(r) && pick < |r.tickets| && !r.tickets[pick].refunded;
            && (a.error.None? <==> open)
            && (!open ==> a.db == d && b == Ok(d))
            && (open ==>
                  && |a.db.raffles| == |b.db.raffles| == |d.raffles|
                  && WonBy(r, a.db.raffles[i].(payout := r.payout), pick, now)
                  && WonBy(r, b.db.raffles[i].(payout := r.payout), pick, now)
                  && (fault == NoFault ==> PayoutWaits(d.config.feeRate, r, a.db.raffles[i]) && b.db == a.db)
                  && (b.error.Some? <==> fault != NoFault))
  {
    RowOf(d, i);
    DrawExactly(d.config.feeRate, d.raffles[i], pick, now);
  }

  /** Selling the last ticket draws the raffle at once; before that nothing happens. */
  lemma SellingOutDraws(d: Db, i: nat, pick: nat, now: Time, fault: Fault)
    requires Inv(d) && i < |d.raffles| && Drawable(d.raffles[i])
    requires pick < |d.raffles[i].tickets| && !d.raffles[i].tickets[pick].refunded
    ensures var r := d.raffles[i];
            var a := CheckCompletion(d, i, pick, now, fault);
            && (PaidCount(r.tickets) < r.total ==> a == Ok(d))
            && (PaidCount(r.tickets) >= r.total ==>
                  && |a.db.raffles| == |d.raffles| && a.db.books == d.books
                  && WonBy(r, a.db.raffles[i].(payout := r.payout), pick, now))
  {
    RowOf(d, i);
    var r := d.raffles[i];
    var full := if r.status == Active then r.(status := SoldOut) else r;
    PaidTicketCounts(r.tickets, pick);
    assert full.tickets == r.tickets;
  }

  /** The payout row that waits for the seller: what the paid tickets are worth less the platform's rate. */
  predicate PayoutWaits(rate: real, r: Raffle, s: Raffle) {
    && s.payout.Some?
    && (r.payout.None? ==> s.payout.value == Payout(NetOf(rate, PaidTotal(r.tickets)), Pending, None, false))
    && (r.payout.Some? ==> s.payout == r.payout)
  }
}
