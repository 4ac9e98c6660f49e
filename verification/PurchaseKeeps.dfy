/** Buying tickets keeps the market invariant, and issues exactly what the pack rule granted. */
module PurchaseKeeps {
  import opened BookSteps
  import opened Journal
  import opened Ledger
  import opened LifecycleKeeps
  import opened Market
  import opened MarketInvariant
  import opened PackRule
  import opened PromotionPricing
  import opened RaffleInvariant
  import opened Raffles
  import opened TicketSelection
  import opened Tickets
  import opened Wrappers

  /** The numbers of an accepted purchase: different, free, of this raffle, and exactly as many as granted. */
  lemma AcceptedNumbers(r: Raffle, buyer: nat, q: Request)
    requires WithinLimits(r.tickets, r.total) && DrawsFit(r, buyer, q)
    requires PurchaseCheck(r, buyer, q).None?
    ensures var ns := ReservedNumbers(r, buyer, q);
            && Distinct(ns)
            && (forall n :: n in ns ==> 1 <= n <= r.total && n !in UsedNumbers(r.tickets))
            && |ns| == PackFor(r, buyer, q).grantedQuantity
    ensures ActiveCount(r.tickets, buyer) + PackFor(r, buyer, q).grantedQuantity <= r.total / 2
  {
    GrantIsLargestAllowed(ModeOf(q), RequestedCount(q), Stock(r), RemainingAllowed(r, buyer), 0);
    if q.AtRandom? {
      RandomNumbers(r, q, PackFor(r, buyer, q).grantedQuantity);
    } else {
      ChosenNumbers(r, q.numbers);
    }
  }

  lemma ChosenNumbers(r: Raffle, numbers: seq<int>)
    requires !exists n :: n in numbers && !(1 <= n <= r.total)
    requires !exists n :: n in numbers && n in UsedNumbers(r.tickets)
    ensures forall n :: n in numbers ==> 1 <= n <= r.total && n !in UsedNumbers(r.tickets)
  {
  }

  lemma RandomNumbers(r: Raffle, q: Request, granted: int)
    requires WithinLimits(r.tickets, r.total) && q.AtRandom?
    requires 1 <= granted <= Stock(r)
    requires var free := Available(UsedNumbers(r.tickets), r.total);
             ValidDraws(|free|, DrawCount(granted, |free|), q.draws)
    ensures var ns := Selected(Available(UsedNumbers(r.tickets), r.total), q.draws);
            && Distinct(ns) && |ns| == granted
            && forall n :: n in ns ==> 1 <= n <= r.total && n !in UsedNumbers(r.tickets)
  {
    var free := Available(UsedNumbers(r.tickets), r.total);
    FreeStock(r.tickets, r.total);
    AvailableIsExact(UsedNumbers(r.tickets), r.total);
    SelectionIsArrangement(free, q.draws);
  }

  /** The stock check after the random selection can never fail: enough numbers always come out. */
  lemma SelectionNeverShort(r: Raffle, buyer: nat, q: Request)
    requires WithinLimits(r.tickets, r.total) && DrawsFit(r, buyer, q) && q.AtRandom?
    requires r.status == Active && !r.hidden && r.seller != buyer
    ensures PurchaseCheck(r, buyer, q).None? <==>
            1 <= q.quantity <= RemainingAllowed(r, buyer) && q.quantity <= Stock(r)
  {
    if 1 <= q.quantity <= RemainingAllowed(r, buyer) && q.quantity <= Stock(r) {
      GrantIsLargestAllowed(Random, q.quantity, Stock(r), RemainingAllowed(r, buyer), 0);
      RandomNumbers(r, q, PackFor(r, buyer, q).grantedQuantity);
    }
  }

  lemma BoughtRowFacts(rate: real, r: Raffle, numbers: seq<int>, buyer: nat)
    requires RowFacts(rate, r) && r.status == Active
    requires WithinLimits(Bought(r.tickets, numbers, buyer, r.price), r.total)
    ensures RowFacts(rate, r.(tickets := Bought(r.tickets, numbers, buyer, r.price)))
    ensures SameMoney(r, r.(tickets := Bought(r.tickets, numbers, buyer, r.price)))
  {
    forall b: nat
      ensures RefundedBy(Bought(r.tickets, numbers, buyer, r.price), b) == RefundedBy(r.tickets, b)
      ensures BoughtBy(Bought(r.tickets, numbers, buyer, r.price), b) >= BoughtBy(r.tickets, b)
    {
      BoughtSums(r.tickets, numbers, buyer, r.price, b);
    }
  }

  /** The purchase transactions add what the seller keeps less what the buyer paid. */
  lemma PurchaseTxsNeutral(entries: seq<Entry>, txs: seq<Tx>, i: nat, r: Raffle, buyer: nat, bill: Bill)
    requires RowBooks(entries, txs, i, r)
    ensures var after := txs + PurchaseTxs(i, buyer, bill);
            && RowBooks(entries, after, i, r)
            && OthersRecorded(txs, after, i)
            && Sum(after, PlatformKept) == Sum(txs, PlatformKept) + bill.charge - bill.sellerNet
  {
    var t1 := Tx(TicketPurchase, buyer, bill.charge, bill.sellerNet, Some(i), None);
    var t2 := Tx(PackSubsidy, buyer, bill.packDiscount, bill.packDiscount, Some(i), None);
    var t3 := Tx(PromotionSubsidy, buyer, bill.bonusDiscount, bill.bonusDiscount, Some(i), None);
    var one := txs + [t1];
    var two := if bill.packDiscount > 0 then one + [t2] else one;
    var three := if bill.bonusDiscount > 0 then two + [t3] else two;
    assert txs + PurchaseTxs(i, buyer, bill) == three;
    PurchaseTx(entries, txs, i, r, t1);
    PurchaseTx(entries, one, i, r, t2);
    PurchaseTx(entries, two, i, r, t3);
  }

  lemma PurchaseTx(entries: seq<Entry>, txs: seq<Tx>, i: nat, r: Raffle, t: Tx)
    requires RowBooks(entries, txs, i, r) && t.kind != SellerPayment && t.kind != CreditLoad
    ensures RowBooks(entries, txs + [t], i, r)
    ensures OthersRecorded(txs, txs + [t], i)
    ensures Sum(txs + [t], PlatformKept) == Sum(txs, PlatformKept) + Share(t, PlatformKept)
  {
    NeutralTx(entries, txs, i, r, t);
    LocalTx(txs, t, i);
    SumAppend(txs, t, PlatformKept);
  }

  lemma PurchaseBooksPost(b: Books, txs: seq<Tx>, i: nat, r: Raffle, buyer: nat, bill: Bill)
    requires Kept(b) && RowBooks(b.entries, txs, i, r)
    requires PurchaseBooks(b, i, buyer, r.seller, bill).Success?
    ensures var after := PurchaseBooks(b, i, buyer, r.seller, bill).value;
            && Kept(after) && |after.wallets| == |b.wallets| && buyer < |b.wallets|
            && RowBooks(after.entries, txs, i, r)
            && OthersKept(b.entries, after.entries, i)
            && Balance(after.entries, Everything) == Balance(b.entries, Everything) - bill.charge + bill.sellerNet
  {
    var e1 := DebitUserPosts(b, buyer, bill.charge, TicketPurchaseDebit, OnRaffle(i));
    var charged := DebitUser(b, buyer, bill.charge, TicketPurchaseDebit, OnRaffle(i)).value;
    var e2 := CreditSellerPosts(charged, r.seller, bill.sellerNet, OnRaffle(i));
    TwoEntries(b.entries, e1, e2, i);
    NeutralEntry(b.entries, txs, i, r, e1);
    NeutralEntry(charged.entries, txs, i, r, e2);
  }

  lemma TwoEntries(entries: seq<Entry>, e1: Entry, e2: Entry, i: nat)
    requires LocalTo(e1.context, i) && LocalTo(e2.context, i)
    ensures OthersKept(entries, entries + [e1] + [e2], i)
    ensures Balance(entries + [e1] + [e2], Everything) == Balance(entries, Everything) + e1.amount + e2.amount
  {
    LocalEntry(entries, e1, i);
    LocalEntry(entries + [e1], e2, i);
    OthersKeptTwice(entries, entries + [e1], entries + [e1] + [e2], i);
    EverythingAppend(entries, e1);
    EverythingAppend(entries + [e1], e2);
  }

  lemma BuyKeeps(d: Db, i: nat, buyer: nat, q: Request, bonus: Option<BonusTerms>)
    requires Inv(d)
    requires i < |d.raffles| ==> DrawsFit(d.raffles[i], buyer, q)
    ensures Inv(Buy(d, i, buyer, q, bonus).db)
  {
    if Buy(d, i, buyer, q, bonus).error.None? {
      RowOf(d, i);
      var r := d.raffles[i];
      var bill := BillFor(d.config, r, PackFor(r, buyer, q), q, bonus).value;
      AcceptedNumbers(r, buyer, q);
      BoughtKeeps(d, i, buyer, ReservedNumbers(r, buyer, q), bill);
    }
  }

  lemma BoughtKeeps(d: Db, i: nat, buyer: nat, numbers: seq<int>, bill: Bill)
    requires Inv(d) && i < |d.raffles| && d.raffles[i].status == Active
    requires var r := d.raffles[i];
             && Distinct(numbers)
             && (forall n :: n in numbers ==> 1 <= n <= r.total && n !in UsedNumbers(r.tickets))
             && ActiveCount(r.tickets, buyer) + |numbers| <= r.total / 2
             && PurchaseBooks(d.books, i, buyer, r.seller, bill).Success?
    ensures var r := d.raffles[i];
            var next := r.(tickets := Bought(r.tickets, numbers, buyer, r.price));
            var books := PurchaseBooks(d.books, i, buyer, r.seller, bill).value;
            Inv(SetRaffle(d, i, next).(books := books, txs := d.txs + PurchaseTxs(i, buyer, bill)))
  {
    RowOf(d, i);
    var r := d.raffles[i];
    var next := r.(tickets := Bought(r.tickets, numbers, buyer, r.price));
    PurchaseKeepsLimits(r.tickets, r.total, numbers, buyer, r.price);
    BoughtRowFacts(d.config.feeRate, r, numbers, buyer);
    PurchaseBooksPost(d.books, d.txs, i, r, buyer, bill);
    var books := PurchaseBooks(d.books, i, buyer, r.seller, bill).value;
    PurchaseTxsNeutral(books.entries, d.txs, i, r, buyer, bill);
    SameMoneySameBooks(books.entries, d.txs + PurchaseTxs(i, buyer, bill), i, r, next);
    MoneyRow(d, i, next, books, d.txs + PurchaseTxs(i, buyer, bill));
  }

  lemma SameMoneySameBooks(entries: seq<Entry>, txs: seq<Tx>, i: nat, a: Raffle, b: Raffle)
    requires RowBooks(entries, txs, i, a) && SameMoney(a, b)
    ensures RowBooks(entries, txs, i, b)
  {
  }
}
