/** The raffle service's lifecycle calls and the periodic raffle tasks. */
module RafflesService {
  import opened Market
  import opened PayoutsService
  import opened Raffles
  import opened Rounds
  import opened Store
  import opened Tickets
  import opened TicketsService
  import opened Wrappers

  class RaffleDesk {
    const db: Database
    const payouts: Payouts
    const tickets: TicketDesk

    ghost predicate Valid() {
      payouts.db == db && payouts.Valid() && tickets.db == db && tickets.Valid()
    }

    constructor (db: Database)
      ensures this.db == db && Valid()
    {
      this.db := db;
      payouts := new Payouts(db);
      tickets := new TicketDesk(db);
    }

    method Create(seller: nat, total: nat, price: nat, deadline: Time) returns (error: Option<Rejection>)
      modifies db
      ensures Reply(db.View(), error) == CreateRaffle(old(db.View()), seller, total, price, deadline)
    {
      if seller >= |db.wallets| {
        return Some(NotFound);
      }
      if total < MIN_TICKETS {
        return Some(BadQuantity);
      }
      if price == 0 {
        return Some(BadPrice);
      }
      db.raffles := db.raffles + [Created(seller, total, price, deadline)];
      return None;
    }

    method RelaunchWithSuggestedPrice(i: nat, user: nat, price: nat, deadline: Time) returns (error: Option<Rejection>)
      modifies db
      ensures Reply(db.View(), error) == Relaunch(old(db.View()), i, user, price, deadline)
    {
      if i >= |db.raffles| {
        return Some(NotFound);
      }
      if db.raffles[i].seller != user {
        return Some(Forbidden);
      }
      if db.raffles[i].status != Cancelled {
        return Some(WrongState);
      }
      error := Create(user, db.raffles[i].total, price, deadline);
    }

    method UpdatePrice(i: nat, user: nat, price: nat) returns (error: Option<Rejection>)
      modifies db
      ensures Reply(db.View(), error) == Market.UpdatePrice(old(db.View()), i, user, price)
    {
      if i >= |db.raffles| {
        return Some(NotFound);
      }
      if db.raffles[i].seller != user {
        return Some(Forbidden);
      }
      if db.raffles[i].status != Active {
        return Some(WrongState);
      }
      if price == 0 {
        return Some(BadPrice);
      }
      db.raffles := db.raffles[i := db.raffles[i].(price := price)];
      return None;
    }

    method ExtendDeadline(i: nat, user: nat, deadline: Time, now: Time) returns (error: Option<Rejection>)
      modifies db
      ensures Reply(db.View(), error) == Market.ExtendDeadline(old(db.View()), i, user, deadline, now)
    {
      if i >= |db.raffles| {
        return Some(NotFound);
      }
      if db.raffles[i].seller != user {
        return Some(Forbidden);
      }
      if db.raffles[i].status != Active {
        return Some(WrongState);
      }
      if deadline <= now || deadline <= db.raffles[i].deadline {
        return Some(BadDeadline);
      }
      db.raffles := db.raffles[i := db.raffles[i].(deadline := deadline)];
      return None;
    }

    method Cancel(i: nat, user: nat) returns (error: Option<Rejection>)
      modifies db
      ensures Reply(db.View(), error) == CancelStep(old(db.View()), i, user)
    {
      if i >= |db.raffles| {
        return Some(NotFound);
      }
      if db.raffles[i].seller != user {
        return Some(Forbidden);
      }
      if db.raffles[i].status != Active {
        return Some(WrongState);
      }
      db.raffles := db.raffles[i := db.raffles[i].(status := Cancelled)];
      return None;
    }

    method MarkAsShipped(i: nat, user: nat, now: Time) returns (error: Option<Rejection>)
      modifies db
      ensures Reply(db.View(), error) == ShipStep(old(db.View()), i, user, now)
    {
      if i >= |db.raffles| {
        return Some(NotFound);
      }
      var r := db.raffles[i];
      if r.seller != user {
        return Some(Forbidden);
      }
      if (r.status != Drawn && r.status != InDelivery) || r.delivery != NotShipped {
        return Some(WrongState);
      }
      db.raffles := db.raffles[i := r.(status := InDelivery, delivery := Shipped, shippedAt := Some(now))];
      return None;
    }

    /** Confirming also schedules the payout; a failure there leaves the delivery confirmed. */
    method ConfirmDelivery(i: nat, user: nat, now: Time, fault: Fault) returns (error: Option<Rejection>)
      requires Valid()
      modifies db
      ensures Reply(db.View(), error) == ConfirmStep(old(db.View()), i, user, now, fault)
    {
      if i >= |db.raffles| {
        return Some(NotFound);
      }
      var r := db.raffles[i];
      if r.winner != Some(user) {
        return Some(Forbidden);
      }
      if r.delivery == Confirmed {
        return Some(AlreadyConfirmed);
      }
      if r.delivery != Shipped {
        return Some(NotShippedYet);
      }
      db.raffles := db.raffles[i := r.(delivery := Confirmed, confirmedAt := Some(now), status := InDelivery)];
      payouts.SchedulePayoutAfterDelivery(i, now, fault);
      return None;
    }

    /** The draw an administrator starts; creating the payout row afterwards may fail unnoticed. */
    method SelectWinner(i: nat, random: nat, now: Time, fault: Fault) returns (error: Option<Rejection>)
      requires Valid()
      requires i < |db.raffles| && PaidCount(db.raffles[i].tickets) > 0 ==> random < PaidCount(db.raffles[i].tickets)
      modifies db
      ensures i < old(|db.raffles|) ==>
                Reply(db.View(), error)
                == Market.SelectWinner(old(db.View()), i, PickedTicket(old(db.raffles)[i].tickets, random), now, fault)
      ensures i >= old(|db.raffles|) ==> error == Some(NotFound) && db.View() == old(db.View())
    {
      if i >= |db.raffles| {
        return Some(NotFound);
      }
      var r := db.raffles[i];
      if r.status != Active && r.status != SoldOut {
        return Some(WrongState);
      }
      var paid := tickets.PaidTickets(r.tickets);
      PaidIndexesValid(r.tickets);
      if |paid| == 0 {
        return Some(NoPaidTickets);
      }
      if r.drawResult.Some? || r.winner.Some? {
        return Some(AlreadyDrawn);
      }
      var winning := paid[random];
      db.raffles := db.raffles[i := r.(drawResult := Some(winning))];
      db.raffles := db.raffles[i := db.raffles[i].(status := Drawn, winner := Some(r.tickets[winning].buyer), drawnAt := Some(now))];
      if fault == NoFault {
        payouts.CreatePayout(i);
      }
      return None;
    }

    method RejectRaffleWinner(i: nat) returns (error: Option<Rejection>)
      modifies db
      ensures Reply(db.View(), error) == RejectWinnerStep(old(db.View()), i)
    {
      if i >= |db.raffles| {
        return Some(NotFound);
      }
      var r := db.raffles[i];
      if r.status != Drawn || r.winner.None? {
        return Some(WrongState);
      }
      db.raffles := db.raffles[i := r.(status := Active, winner := None, drawnAt := None)];
      return None;
    }
  }

  // ----- Periodic tasks -----

  /** The outside world of one round of a task, raffle by raffle. */
  datatype World = World(random: nat -> nat, fault: nat -> Fault, outcome: nat -> Outcome)

  ghost predicate RandomFits(rows: seq<Raffle>, random: nat -> nat) {
    forall i: nat :: i < |rows| && PaidCount(rows[i].tickets) > 0 ==> random(i) < PaidCount(rows[i].tickets)
  }

  /** One round of the expiry task: each listed raffle in turn, failures logged. */
  function ExpiryRound(snapshot: Db, n: nat, now: Time, w: World): Db {
    Fold(snapshot, n, ExpireListed(snapshot, now, w))
  }

  function ExpireListed(snapshot: Db, now: Time, w: World): (Db, nat) -> Db {
    (d: Db, i: nat) =>
      if i < |snapshot.raffles|
      then ProcessExpired(d, i, PickedTicket(snapshot.raffles[i].tickets, w.random(i)), now, w.fault(i)).db
      else d
  }

  function ReleaseRound(snapshot: Db, n: nat, now: Time, w: World): Db {
    Fold(snapshot, n, ReleaseListed(now, w))
  }

  function ReleaseListed(now: Time, w: World): (Db, nat) -> Db {
    (d: Db, i: nat) => AutoRelease(d, i, now, w.outcome(i)).db
  }

  /** The rows a round has not come to yet are as they were when the list was read. */
  ghost predicate Waiting(snapshot: Db, d: Db, n: nat) {
    && |d.raffles| == |snapshot.raffles|
    && forall j :: n <= j < |snapshot.raffles| ==> d.raffles[j] == snapshot.raffles[j]
  }

  lemma ExpiredIsLocal(d: Db, i: nat, pick: nat, now: Time, fault: Fault)
    ensures var e := ProcessExpired(d, i, pick, now, fault).db;
            |e.raffles| == |d.raffles| && forall j :: 0 <= j < |d.raffles| && j != i ==> e.raffles[j] == d.raffles[j]
  {
  }

  lemma ReleaseIsLocal(d: Db, i: nat, now: Time, outcome: Outcome)
    ensures var e := AutoRelease(d, i, now, outcome).db;
            |e.raffles| == |d.raffles| && forall j :: 0 <= j < |d.raffles| && j != i ==> e.raffles[j] == d.raffles[j]
  {
  }

  class RaffleTasks {
    const db: Database
    const payouts: Payouts
    const tickets: TicketDesk

    ghost predicate Valid() {
      payouts.db == db && payouts.Valid() && tickets.db == db && tickets.Valid()
    }

    constructor (db: Database)
      ensures this.db == db && Valid()
    {
      this.db := db;
      payouts := new Payouts(db);
      tickets := new TicketDesk(db);
    }

    /** Refund every ticket and cancel; nothing happens when the refund is refused. */
    method CancelAndRefundRaffle(i: nat) returns (error: Option<Rejection>)
      requires Valid()
      modifies db
      ensures Reply(db.View(), error) == CancelAndRefund(old(db.View()), i)
    {
      error := tickets.RefundTickets(i);
      if error.Some? || i >= |db.raffles| {
        return;
      }
      db.raffles := db.raffles[i := db.raffles[i].(status := Cancelled)];
    }

    /** One listed raffle: draw it, or cancel and refund it. */
    method ProcessExpiredRaffle(i: nat, random: nat, now: Time, fault: Fault)
      requires Valid() && i < |db.raffles|
      requires PaidCount(db.raffles[i].tickets) > 0 ==> random < PaidCount(db.raffles[i].tickets)
      modifies db
      ensures db.View()
           == ProcessExpired(old(db.View()), i, PickedTicket(old(db.raffles)[i].tickets, random), now, fault).db
    {
      if !Expires(db.raffles[i], now) {
        return;
      }
      var error: Option<Rejection>;
      if db.raffles[i].status == SoldOut || SoldEnough(db.raffles[i]) {
        error := tickets.DrawRaffleIfEligible(i, random, now, fault);
      } else {
        error := CancelAndRefundRaffle(i);
      }
    }

    /** Draw every sold-out or well-sold expired raffle, cancel and refund the others. */
    method ProcessExpiredRaffles(now: Time, w: World)
      requires Valid() && RandomFits(db.raffles, w.random)
      modifies db
      ensures db.View() == ExpiryRound(old(db.View()), old(|db.raffles|), now, w)
    {
      ghost var start := db.View();
      var rows := db.raffles;
      var k := 0;
      while k < |rows|
        invariant 0 <= k <= |rows|
        invariant Waiting(start, db.View(), k)
        invariant db.View() == ExpiryRound(start, k, now, w)
      {
        ExpiredLeavesWaiting(start, db.View(), k, PickedTicket(rows[k].tickets, w.random(k)), now, w.fault(k));
        ProcessExpiredRaffle(k, w.random(k), now, w.fault(k));
        k := k + 1;
      }
    }

    /** One listed raffle: confirm the delivery, then try to pay; a failure is only logged. */
    method ReleaseRaffle(i: nat, now: Time, outcome: Outcome)
      requires Valid() && i < |db.raffles|
      modifies db
      ensures db.View() == AutoRelease(old(db.View()), i, now, outcome).db
    {
      ghost var before := db.View();
      ReleaseCases(before, i, now, outcome);
      if AutoReleases(db.raffles[i], now) {
        db.raffles := db.raffles[i := db.raffles[i].(status := InDelivery, delivery := Confirmed, confirmedAt := Some(now))];
        assert db.View() == SetRaffle(before, i, AutoConfirm(before.raffles[i], now));
        var error := payouts.ProcessPayoutForRaffle(i, now, outcome);
      }
    }

    /** Confirm every drawn raffle after a week without dispute, and try to pay its seller. */
    method AutoReleasePayments(now: Time, w: World)
      requires Valid()
      modifies db
      ensures db.View() == ReleaseRound(old(db.View()), old(|db.raffles|), now, w)
    {
      ghost var start := db.View();
      var rows := db.raffles;
      var k := 0;
      while k < |rows|
        invariant 0 <= k <= |rows|
        invariant Waiting(start, db.View(), k)
        invariant db.View() == ReleaseRound(start, k, now, w)
      {
        ReleaseLeavesWaiting(start, db.View(), k, now, w.outcome(k));
        ReleaseRaffle(k, now, w.outcome(k));
        k := k + 1;
      }
    }
  }

  lemma ExpiredLeavesWaiting(start: Db, d: Db, k: nat, pick: nat, now: Time, fault: Fault)
    requires k < |start.raffles| && Waiting(start, d, k)
    ensures Waiting(start, ProcessExpired(d, k, pick, now, fault).db, k + 1)
  {
    ExpiredIsLocal(d, k, pick, now, fault);
  }

  lemma ReleaseLeavesWaiting(start: Db, d: Db, k: nat, now: Time, outcome: Outcome)
    requires k < |start.raffles| && Waiting(start, d, k)
    ensures Waiting(start, AutoRelease(d, k, now, outcome).db, k + 1)
  {
    ReleaseIsLocal(d, k, now, outcome);
  }

  lemma ReleaseCases(d: Db, i: nat, now: Time, outcome: Outcome)
    requires i < |d.raffles|
    ensures AutoRelease(d, i, now, outcome).db
         == if !AutoReleases(d.raffles[i], now) then d
            else ProcessPayoutForRaffle(SetRaffle(d, i, AutoConfirm(d.raffles[i], now)), i, now, outcome).db
  {
  }
}
