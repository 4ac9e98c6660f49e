/** The ticket service: checkout, refunds of a whole raffle, and the draw. */
module TicketsService {
  import opened Journal
  import opened Ledger
  import opened Market
  import opened PayoutsService
  import opened PromotionPricing
  import opened Raffles
  import opened Store
  import opened TicketSelection
  import opened Tickets
  import opened Wrappers

  /** The ticket a random index into the paid tickets of a raffle stands for. */
  function PickedTicket(tickets: seq<Ticket>, random: nat): nat {
    if random < |PaidIndexes(tickets)| then PaidIndexes(tickets)[random] else 0
  }

  lemma {:induction false} PaidIndexesAscend(tickets: seq<Ticket>)
    ensures forall k :: 0 <= k < |PaidIndexes(tickets)| ==> PaidIndexes(tickets)[k] < |tickets|
    ensures forall j, k :: 0 <= j < k < |PaidIndexes(tickets)| ==> PaidIndexes(tickets)[j] < PaidIndexes(tickets)[k]
    ensures forall p: nat :: p in PaidIndexes(tickets) <==> p < |tickets| && !tickets[p].refunded
  {
    if |tickets| > 0 {
      PaidIndexesAscend(tickets[..|tickets| - 1]);
    }
  }

  /** A uniform index is a uniform winner: each paid ticket is picked by exactly one index, and no other ticket ever is. */
  lemma DrawIsUniform(tickets: seq<Ticket>, p: nat)
    ensures p < |tickets| && !tickets[p].refunded <==>
            exists random :: 0 <= random < PaidCount(tickets) && PickedTicket(tickets, random) == p
    ensures forall a, b :: 0 <= a < b < PaidCount(tickets) ==> PickedTicket(tickets, a) != PickedTicket(tickets, b)
  {
    PaidIndexesAscend(tickets);
    PaidIndexesValid(tickets);
    if p < |tickets| && !tickets[p].refunded {
      assert p in PaidIndexes(tickets);
      var random :| 0 <= random < |PaidIndexes(tickets)| && PaidIndexes(tickets)[random] == p;
      assert PickedTicket(tickets, random) == p;
    }
    forall a, b | 0 <= a < b < PaidCount(tickets) ensures PickedTicket(tickets, a) != PickedTicket(tickets, b) {
      assert PaidIndexes(tickets)[a] < PaidIndexes(tickets)[b];
    }
  }

  class TicketDesk {
    const db: Database
    const wallet: WalletService
    const payouts: Payouts

    ghost predicate Valid() {
      wallet.db == db && payouts.db == db && payouts.Valid()
    }

    constructor (db: Database)
      ensures this.db == db && Valid()
    {
      this.db := db;
      wallet := new WalletService(db);
      payouts := new Payouts(db);
    }

    // ----- Checkout -----

    /** How many numbers were asked for and whether the raffle, the buyer and the stock allow it. */
    method CheckRequest(r: Raffle, buyer: nat, q: Request) returns (refusal: Option<Rejection>, taken: nat)
      requires DrawsFit(r, buyer, q)
      ensures refusal.Some? ==> PurchaseCheck(r, buyer, q) == refusal
      ensures taken == ActiveCount(r.tickets, buyer)
      ensures refusal.None? ==>
                && !(q.Chosen? && (|q.numbers| == 0 || !Distinct(q.numbers)))
                && r.status == Active && !r.hidden && r.seller != buyer
                && 1 <= RequestedCount(q) <= RemainingAllowed(r, buyer) && RequestedCount(q) <= Stock(r)
    {
      taken := 0;
      var k := 0;
      while k < |r.tickets|
        invariant 0 <= k <= |r.tickets|
        invariant taken == ActiveCount(r.tickets[..k], buyer)
      {
        assert r.tickets[..k + 1][..k] == r.tickets[..k];
        if r.tickets[k].buyer == buyer && !r.tickets[k].refunded {
          taken := taken + 1;
        }
        k := k + 1;
      }
      assert r.tickets[..k] == r.tickets;
      if q.Chosen? && |q.numbers| == 0 {
        return Some(BadQuantity), taken;
      }
      if q.Chosen? && !Distinct(q.numbers) {
        return Some(BadNumbers), taken;
      }
      if r.status != Active || r.hidden {
        return Some(WrongState), taken;
      }
      if r.seller == buyer {
        return Some(OwnRaffle), taken;
      }
      if RequestedCount(q) < 1 {
        return Some(BadQuantity), taken;
      }
      if RequestedCount(q) > RemainingAllowed(r, buyer) {
        return Some(OverBuyerLimit), taken;
      }
      if RequestedCount(q) > Stock(r) {
        return Some(OutOfStock), taken;
      }
      return None, taken;
    }

    /** The numbers a purchase reserves: the chosen ones if they are free, or a random selection of the granted size. */
    method ReserveNumbers(r: Raffle, buyer: nat, q: Request) returns (numbers: Result<seq<int>, Rejection>)
      requires DrawsFit(r, buyer, q)
      requires && !(q.Chosen? && (|q.numbers| == 0 || !Distinct(q.numbers)))
               && r.status == Active && !r.hidden && r.seller != buyer
               && 1 <= RequestedCount(q) <= RemainingAllowed(r, buyer) && RequestedCount(q) <= Stock(r)
      ensures numbers.Failure? ==> PurchaseCheck(r, buyer, q) == Some(numbers.error)
      ensures numbers.Success? ==> PurchaseCheck(r, buyer, q).None? && numbers.value == ReservedNumbers(r, buyer, q)
    {
      var used := UsedNumbers(r.tickets);
      var granted := PackFor(r, buyer, q).grantedQuantity;
      if q.Chosen? {
        if exists n :: n in q.numbers && !(1 <= n <= r.total) {
          return Failure(BadNumbers);
        }
        if exists n :: n in q.numbers && n in used {
          return Failure(BadNumbers);
        }
        if |q.numbers| < granted {
          return Failure(OutOfStock);
        }
        return Success(q.numbers);
      }
      var selected := SelectRandomAvailableNumbers(used, r.total, granted, q.draws);
      if |selected| < granted {
        return Failure(OutOfStock);
      }
      return Success(selected);
    }

    /** Charge the buyer, credit the seller, and put the purchase and its subsidies on record. */
    method SettlePurchase(i: nat, buyer: nat, seller: nat, bill: Bill) returns (refused: bool)
      requires Valid()
      modifies db
      ensures refused <==> PurchaseBooks(old(db.View()).books, i, buyer, seller, bill).Failure?
      ensures !refused ==>
                db.View() == old(db.View()).(
                             books := PurchaseBooks(old(db.View()).books, i, buyer, seller, bill).value,
                             txs := old(db.txs) + PurchaseTxs(i, buyer, bill))
    {
      var error := wallet.DebitUserBalance(buyer, bill.charge, TicketPurchaseDebit, OnRaffle(i));
      if error.Some? {
        return true;
      }
      error := wallet.CreditSellerPayable(seller, bill.sellerNet, OnRaffle(i));
      if error.Some? {
        return true;
      }
      db.txs := db.txs + [Tx(TicketPurchase, buyer, bill.charge, bill.sellerNet, Some(i), None)];
      if bill.packDiscount > 0 {
        db.txs := db.txs + [Tx(PackSubsidy, buyer, bill.packDiscount, bill.packDiscount, Some(i), None)];
      }
      if bill.bonusDiscount > 0 {
        db.txs := db.txs + [Tx(PromotionSubsidy, buyer, bill.bonusDiscount, bill.bonusDiscount, Some(i), None)];
      }
      assert db.txs == old(db.txs) + PurchaseTxs(i, buyer, bill);
      return false;
    }

    /** One checkout, all or nothing. */
    method ReserveTicketsForCheckout(i: nat, buyer: nat, q: Request, bonus: Option<BonusTerms>)
      returns (error: Option<Rejection>)
      requires Valid()
      requires i < |db.raffles| ==> DrawsFit(db.raffles[i], buyer, q)
      modifies db
      ensures Reply(db.View(), error) == Buy(old(db.View()), i, buyer, q, bonus)
    {
      var start := db.View();
      if i >= |db.raffles| {
        return Some(NotFound);
      }
      var r := db.raffles[i];
      var refusal, taken := CheckRequest(r, buyer, q);
      if refusal.Some? {
        return refusal;
      }
      var numbers := ReserveNumbers(r, buyer, q);
      if numbers.Failure? {
        return Some(numbers.error);
      }
      var bill := BillFor(db.config, r, PackFor(r, buyer, q), q, bonus);
      if bill.Failure? {
        return Some(bill.error);
      }
      db.raffles := db.raffles[i := r.(tickets := r.tickets + Issued(numbers.value, buyer, r.price))];
      var refused := SettlePurchase(i, buyer, r.seller, bill.value);
      if refused {
        db.Rollback(start);
        return Some(BadAmount);
      }
      return None;
    }

    // ----- Refunding a raffle -----

    /** Buyers with paid tickets, each once, in the order of their first ticket. */
    method GroupByBuyer(tickets: seq<Ticket>) returns (buyers: seq<nat>)
      ensures buyers == PaidBuyers(tickets)
    {
      buyers := [];
      var k := 0;
      while k < |tickets|
        invariant 0 <= k <= |tickets|
        invariant buyers == PaidBuyers(tickets[..k])
      {
        assert tickets[..k + 1][..k] == tickets[..k];
        if !tickets[k].refunded && tickets[k].buyer !in buyers {
          buyers := buyers + [tickets[k].buyer];
        }
        k := k + 1;
      }
      assert tickets[..k] == tickets;
    }

    /** One credit per buyer; stops at the first one that is refused. */
    method CreditBuyers(i: nat, tickets: seq<Ticket>, buyers: seq<nat>) returns (refused: bool)
      requires Valid()
      modifies db
      ensures refused <==> RefundBuyers(old(db.View()).books, i, tickets, buyers).Failure?
      ensures !refused ==> db.View() == old(db.View()).(books := RefundBuyers(old(db.View()).books, i, tickets, buyers).value)
    {
      ghost var start := db.View();
      var k := 0;
      while k < |buyers|
        invariant 0 <= k <= |buyers|
        invariant RefundBuyers(start.books, i, tickets, buyers[..k]).Success?
        invariant db.View() == start.(books := RefundBuyers(start.books, i, tickets, buyers[..k]).value)
      {
        assert buyers[..k + 1][..k] == buyers[..k];
        var error := wallet.CreditUserBalance(buyers[k], PaidBy(tickets, buyers[k]), TicketPurchaseRefund, OnRaffle(i));
        if error.Some? {
          FailedCreditFails(start.books, i, tickets, buyers, k + 1);
          return true;
        }
        k := k + 1;
      }
      assert buyers[..k] == buyers;
      return false;
    }

    /** Refund every paid ticket in one transaction. */
    method RefundTickets(i: nat) returns (error: Option<Rejection>)
      requires Valid()
      modifies db
      ensures Reply(db.View(), error) == Market.RefundTickets(old(db.View()), i)
    {
      var start := db.View();
      if i >= |db.raffles| {
        return Some(NotFound);
      }
      var r := db.raffles[i];
      if r.releasedAt.Some? || (r.payout.Some? && r.payout.value.status == Completed) {
        return Some(AlreadyPaidOut);
      }
      var refused := MoveRefunds(i, r.seller, r.tickets);
      if refused {
        db.Rollback(start);
        return Some(BadAmount);
      }
      db.raffles := db.raffles[i := r.(tickets := Marked(r.tickets, AllPaid(r.tickets)))];
      return None;
    }

    method MoveRefunds(i: nat, seller: nat, tickets: seq<Ticket>) returns (refused: bool)
      requires Valid()
      modifies db
      ensures refused <==> RefundAllBooks(old(db.View()).books, i, seller, tickets).Failure?
      ensures !refused ==> db.View() == old(db.View()).(books := RefundAllBooks(old(db.View()).books, i, seller, tickets).value)
    {
      var buyers := GroupByBuyer(tickets);
      refused := CreditBuyers(i, tickets, buyers);
      if refused {
        return true;
      }
      if PaidTotal(tickets) > 0 {
        var error := wallet.DebitSellerPayable(seller, PaidTotal(tickets), Context(Some(i), None, None, TicketRefund));
        return error.Some?;
      }
      return false;
    }

    // ----- Draw -----

    method PaidTickets(tickets: seq<Ticket>) returns (paid: seq<nat>)
      ensures paid == PaidIndexes(tickets) && |paid| == PaidCount(tickets)
    {
      paid := [];
      var k := 0;
      while k < |tickets|
        invariant 0 <= k <= |tickets|
        invariant paid == PaidIndexes(tickets[..k])
      {
        assert tickets[..k + 1][..k] == tickets[..k];
        if !tickets[k].refunded {
          paid := paid + [k];
        }
        k := k + 1;
      }
      assert tickets[..k] == tickets;
      PaidIndexesValid(tickets);
    }

    /** random: the index the random source picked among the paid tickets. */
    method DrawRaffleIfEligible(i: nat, random: nat, now: Time, fault: Fault) returns (error: Option<Rejection>)
      requires Valid()
      requires i < |db.raffles| && PaidCount(db.raffles[i].tickets) > 0 ==> random < PaidCount(db.raffles[i].tickets)
      modifies db
      ensures i < old(|db.raffles|) ==>
                Reply(db.View(), error)
                == DrawIfEligible(old(db.View()), i, PickedTicket(old(db.raffles)[i].tickets, random), now, fault)
      ensures i >= old(|db.raffles|) ==> error.None? && db.View() == old(db.View())
    {
      if i >= |db.raffles| {
        return None;
      }
      var r := db.raffles[i];
      if r.status != Active && r.status != SoldOut {
        return None;
      }
      var paid := PaidTickets(r.tickets);
      PaidIndexesValid(r.tickets);
      if r.drawResult.Some? || r.winner.Some? || |paid| == 0 {
        return None;
      }
      var winning := paid[random];
      db.raffles := db.raffles[i := r.(drawResult := Some(winning))];
      db.raffles := db.raffles[i := db.raffles[i].(status := Drawn, winner := Some(r.tickets[winning].buyer), drawnAt := Some(now))];
      if fault != NoFault {
        return Some(StorageFault);
      }
      payouts.CreatePayout(i);
      return None;
    }

    /** After a purchase: mark a fully paid raffle as sold out and draw it. */
    method CheckRaffleCompletion(i: nat, random: nat, now: Time, fault: Fault) returns (error: Option<Rejection>)
      requires Valid()
      requires i < |db.raffles| && PaidCount(db.raffles[i].tickets) > 0 ==> random < PaidCount(db.raffles[i].tickets)
      modifies db
      ensures i < old(|db.raffles|) ==>
                Reply(db.View(), error)
                == CheckCompletion(old(db.View()), i, PickedTicket(old(db.raffles)[i].tickets, random), now, fault)
      ensures i >= old(|db.raffles|) ==> error.None? && db.View() == old(db.View())
    {
      if i >= |db.raffles| {
        return None;
      }
      var r := db.raffles[i];
      var paid := PaidTickets(r.tickets);
      if |paid| < r.total {
        return None;
      }
      if r.status == Active {
        db.raffles := db.raffles[i := r.(status := SoldOut)];
      } else {
        assert db.raffles[i := r] == db.raffles;
      }
      error := DrawRaffleIfEligible(i, random, now, fault);
    }
  }

  /** Once a credit is refused, the refund as a whole is. */
  lemma {:induction false} FailedCreditFails(b: Books, i: nat, tickets: seq<Ticket>, buyers: seq<nat>, k: nat)
    requires k <= |buyers| && RefundBuyers(b, i, tickets, buyers[..k]).Failure?
    ensures RefundBuyers(b, i, tickets, buyers).Failure?
    decreases |buyers| - k
  {
    if k == |buyers| {
      assert buyers[..k] == buyers;
    } else {
      assert buyers[..k + 1][..k] == buyers[..k];
      FailedCreditFails(b, i, tickets, buyers, k + 1);
    }
  }
}
