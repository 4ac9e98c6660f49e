/** The dispute service and its daily task, written as they change the stored rows. */
module DisputesService {
  import opened DisputeMath
  import opened Ledger
  import opened Market
  import opened Raffles
  import Rounding
  import opened Rounds
  import opened Store
  import opened Tickets
  import opened Wrappers

  /** A resolution with valid amounts is the refund, if there is one, and then the two row updates. */
  lemma ResolveCases(d: Db, i: nat, decision: Decision, refund: Option<real>, seller: Option<real>, now: Time)
    requires i < |d.raffles| && DisputeActive(d.raffles[i])
    requires SplitAmounts(decision, PaidBy(d.raffles[i].tickets, d.raffles[i].dispute.value.reporter), refund, seller).Success?
    ensures var buyer := d.raffles[i].dispute.value.reporter;
            var split := SplitAmounts(decision, PaidBy(d.raffles[i].tickets, buyer), refund, seller).value;
            var refunded := if split.refund > 0 then DisputeRefund(d, i, buyer, split.refund) else Ok(d);
            && i < |refunded.db.raffles| && refunded.db.raffles[i].dispute == d.raffles[i].dispute
            && Resolve(d, i, decision, refund, seller, now)
               == if refunded.error.Some? then refunded
                  else Ok(SetRaffle(refunded.db, i, CloseDispute(refunded.db.raffles[i], decision, split, now)))
  {
  }

  class Disputes {
    const db: Database
    const wallet: WalletService

    ghost predicate Valid() {
      wallet.db == db
    }

    constructor (db: Database)
      ensures this.db == db && Valid()
    {
      this.db := db;
      wallet := new WalletService(db);
    }

    method OpenDispute(i: nat, user: nat, now: Time) returns (error: Option<Rejection>)
      modifies db
      ensures Reply(db.View(), error) == OpenDisputeStep(old(db.View()), i, user, now)
    {
      if i >= |db.raffles| {
        return Some(NotFound);
      }
      var raffle := db.raffles[i];
      if raffle.winner != Some(user) {
        return Some(Forbidden);
      }
      if raffle.dispute.Some? {
        return Some(AlreadyDisputed);
      }
      if raffle.status != Drawn && !(raffle.status == InDelivery && raffle.delivery == Shipped) {
        return Some(WrongState);
      }
      db.raffles := db.raffles[i := raffle.(delivery := Disputed)];
      db.raffles := db.raffles[i := db.raffles[i].(dispute := Some(Dispute(user, Open, 0, 0, now, None, None)))];
      return None;
    }

    method RespondDispute(i: nat, user: nat, now: Time) returns (error: Option<Rejection>)
      modifies db
      ensures Reply(db.View(), error) == RespondStep(old(db.View()), i, user, now)
    {
      if i >= |db.raffles| || db.raffles[i].dispute.None? {
        return Some(NotFound);
      }
      var raffle := db.raffles[i];
      if raffle.seller != user {
        return Some(Forbidden);
      }
      var dispute := raffle.dispute.value;
      if dispute.status != Open && dispute.status != AwaitingSeller {
        return Some(WrongState);
      }
      db.raffles := db.raffles[i := raffle.(dispute := Some(dispute.(status := InMediation, respondedAt := Some(now))))];
      return None;
    }

    /** What the buyer paid for the tickets that are still paid. */
    method BuyerPaidTotal(tickets: seq<Ticket>, buyer: nat) returns (paid: nat)
      ensures paid == PaidBy(tickets, buyer)
    {
      paid := 0;
      var k := 0;
      while k < |tickets|
        invariant 0 <= k <= |tickets|
        invariant paid == PaidBy(tickets[..k], buyer)
      {
        assert tickets[..k + 1][..k] == tickets[..k];
        if tickets[k].buyer == buyer && !tickets[k].refunded {
          paid := paid + tickets[k].price;
        }
        k := k + 1;
      }
      assert tickets[..k] == tickets;
    }

    /** The buyer's paid tickets, oldest first. */
    method PaidTickets(tickets: seq<Ticket>, buyer: nat) returns (positions: seq<nat>)
      ensures positions == PaidPositions(tickets, buyer)
    {
      positions := [];
      var k := 0;
      while k < |tickets|
        invariant 0 <= k <= |tickets|
        invariant positions == PaidPositions(tickets[..k], buyer)
      {
        assert tickets[..k + 1][..k] == tickets[..k];
        if tickets[k].buyer == buyer && !tickets[k].refunded {
          positions := positions + [k];
        }
        k := k + 1;
      }
      assert tickets[..k] == tickets;
    }

    /** Amounts by decision, their checks in order, and the rounding to cents. */
    method ResolutionAmounts(decision: Decision, paid: nat, refund: Option<real>, seller: Option<real>)
      returns (split: Result<Split, AmountError>)
      ensures split == SplitAmounts(decision, paid, refund, seller)
    {
      var refundAmount := 0.0;
      var sellerAmount := 0.0;
      if decision == ForBuyer {
        refundAmount := OrElse(refund, paid as real);
      } else if decision == ForSeller {
        sellerAmount := OrElse(seller, paid as real);
      } else {
        refundAmount := OrElse(refund, 0.0);
        var rest := paid as real - refundAmount;
        sellerAmount := OrElse(seller, if rest > 0.0 then rest else 0.0);
      }
      if refundAmount < 0.0 || sellerAmount < 0.0 {
        return Failure(NegativeAmount);
      }
      if decision != ForSeller && refundAmount <= 0.0 {
        return Failure(RefundRequired);
      }
      if decision == Partial && sellerAmount <= 0.0 {
        return Failure(SellerAmountRequired);
      }
      if refundAmount + sellerAmount > paid as real + 1.0 {
        return Failure(ExceedsPaid);
      }
      return Success(Split(Rounding.RoundHalfUp(refundAmount), Rounding.RoundHalfUp(sellerAmount)));
    }

    /** One transaction: credit the buyer, debit the seller, mark the tickets that are paid back in full. */
    method ProcessDisputeRefund(i: nat, buyer: nat, cents: int) returns (error: Option<Rejection>)
      requires Valid()
      modifies db
      ensures Reply(db.View(), error) == DisputeRefund(old(db.View()), i, buyer, cents)
    {
      if i >= |db.raffles| {
        return Some(NotFound);
      }
      var raffle := db.raffles[i];
      if raffle.releasedAt.Some? || (raffle.payout.Some? && raffle.payout.value.status == Completed) {
        return Some(AlreadyPaidOut);
      }
      var positions := PaidTickets(raffle.tickets, buyer);
      PaidPositionsValid(raffle.tickets, buyer);
      if |positions| == 0 {
        return Some(NoPaidTickets);
      }
      var paid := BuyerPaidTotal(raffle.tickets, buyer);
      if cents > paid + 1 {
        return Some(RefundTooLarge);
      }
      var refused := MoveRefund(i, buyer, raffle.seller, cents);
      if refused {
        return Some(BadAmount);
      }
      var refunded := FullyRefunded(positions, Prices(raffle.tickets, positions), cents);
      db.raffles := db.raffles[i := raffle.(tickets := Marked(raffle.tickets, Members(refunded)))];
      return None;
    }

    /** Credit the buyer and debit the seller, or neither. */
    method MoveRefund(i: nat, buyer: nat, seller: nat, cents: int) returns (refused: bool)
      requires Valid()
      modifies db
      ensures refused <==> DisputeBooks(old(db.View()).books, i, buyer, seller, cents).Failure?
      ensures db.View() == if refused then old(db.View())
                           else old(db.View()).(books := DisputeBooks(old(db.View()).books, i, buyer, seller, cents).value)
    {
      var start := db.View();
      var context := Context(Some(i), None, None, DisputeResolution);
      var error := wallet.CreditUserBalance(buyer, cents, TicketPurchaseRefund, context);
      if error.Some? {
        return true;
      }
      error := wallet.DebitSellerPayable(seller, cents, context);
      if error.Some? {
        db.Rollback(start);
        return true;
      }
      return false;
    }

    method ResolveDispute(i: nat, decision: Decision, refund: Option<real>, seller: Option<real>, now: Time)
      returns (error: Option<Rejection>)
      requires Valid()
      modifies db
      ensures Reply(db.View(), error) == Resolve(old(db.View()), i, decision, refund, seller, now)
    {
      ghost var start := db.View();
      if i >= |db.raffles| || db.raffles[i].dispute.None? {
        return Some(NotFound);
      }
      var dispute := db.raffles[i].dispute.value;
      if dispute.status.Resolved? {
        return Some(WrongState);
      }
      var paid := BuyerPaidTotal(db.raffles[i].tickets, dispute.reporter);
      var amounts := ResolutionAmounts(decision, paid, refund, seller);
      if amounts.Failure? {
        return Some(BadAmount);
      }
      var split := amounts.value;
      ResolveCases(start, i, decision, refund, seller, now);
      if split.refund > 0 {
        error := ProcessDisputeRefund(i, dispute.reporter, split.refund);
        if error.Some? {
          return;
        }
      }
      WriteResolution(i, decision, split, now);
      error := None;
    }

    /** The dispute row first, then the raffle row. */
    method WriteResolution(i: nat, decision: Decision, split: Split, now: Time)
      requires i < |db.raffles| && db.raffles[i].dispute.Some?
      modifies db
      ensures db.View() == SetRaffle(old(db.View()), i, CloseDispute(old(db.raffles)[i], decision, split, now))
    {
      var dispute := db.raffles[i].dispute.value;
      dispute := dispute.(status := Resolved(decision), refund := split.refund, sellerAmount := split.seller, resolvedAt := Some(now));
      db.raffles := db.raffles[i := db.raffles[i].(dispute := Some(dispute))];
      var delivery := if decision == ForSeller then Confirmed else Disputed;
      db.raffles := db.raffles[i := db.raffles[i].(delivery := delivery, status := Finalised)];
    }
  }

  // ----- The daily task -----

  /** One day of automatic refunds: every dispute that timed out when the list was read, one after another. */
  function AutoRefunds(snapshot: Db, n: nat, now: Time): Db
    requires n <= |snapshot.raffles|
  {
    Fold(snapshot, n, RefundListed(snapshot, now))
  }

  function RefundListed(snapshot: Db, now: Time): (Db, nat) -> Db {
    (d: Db, i: nat) => if i < |snapshot.raffles| && TimesOut(snapshot.raffles[i], now) then AutoRefundListed(d, i, now) else d
  }

  /** The amount is computed from the tickets when the dispute's turn comes; a refusal is only logged. */
  function AutoRefundListed(d: Db, i: nat, now: Time): Db {
    if i >= |d.raffles| || d.raffles[i].dispute.None? then d
    else
      var paid := PaidBy(d.raffles[i].tickets, d.raffles[i].dispute.value.reporter);
      Resolve(d, i, ForBuyer, Some(paid as real), Some(0.0), now).db
  }

  class DisputeTasks {
    const db: Database
    const disputes: Disputes

    ghost predicate Valid() {
      disputes.db == db && disputes.Valid()
    }

    constructor (db: Database)
      ensures this.db == db && Valid()
    {
      this.db := db;
      disputes := new Disputes(db);
    }

    /** Move every unanswered dispute that waits for its seller to mediation. */
    method EscalateUnrespondedDisputes(now: Time)
      modifies db
      ensures db.View() == old(db.View()).(raffles := Escalated(old(db.raffles), now))
    {
      var rows := db.raffles;
      var k := 0;
      while k < |rows|
        invariant 0 <= k <= |rows| == |db.raffles|
        invariant db.View() == old(db.View()).(raffles := db.raffles)
        invariant forall j :: 0 <= j < k ==> db.raffles[j] == Escalate(rows[j], now)
        invariant forall j :: k <= j < |rows| ==> db.raffles[j] == rows[j]
      {
        if Escalates(rows[k], now) {
          db.raffles := db.raffles[k := rows[k].(dispute := Some(rows[k].dispute.value.(status := InMediation)))];
        }
        k := k + 1;
      }
    }

    /** Refund everything to the reporter of each dispute nobody resolved for fifteen days. */
    method AutoRefundOldDisputes(now: Time)
      requires Valid()
      modifies db
      ensures db.View() == AutoRefunds(old(db.View()), old(|db.raffles|), now)
    {
      ghost var start := db.View();
      var rows := db.raffles;
      var k := 0;
      while k < |rows|
        invariant 0 <= k <= |rows|
        invariant db.View() == AutoRefunds(start, k, now)
      {
        if TimesOut(rows[k], now) && k < |db.raffles| && db.raffles[k].dispute.Some? {
          var paid := disputes.BuyerPaidTotal(db.raffles[k].tickets, db.raffles[k].dispute.value.reporter);
          var error := disputes.ResolveDispute(k, ForBuyer, Some(paid as real), Some(0.0), now);
        }
        k := k + 1;
      }
    }
  }

  function Escalated(rows: seq<Raffle>, now: Time): seq<Raffle> {
    seq(|rows|, k requires 0 <= k < |rows| => Escalate(rows[k], now))
  }
}
