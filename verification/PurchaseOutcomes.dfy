/** What a purchase costs, what the seller earns by it, and when it is acceptable at all. */
module PurchaseOutcomes {
  import opened DisputeMath
  import opened ExactConditions
  import opened Journal
  import opened LifecycleKeeps
  import opened Market
  import opened MarketInvariant
  import opened PackRule
  import opened PromotionPricing
  import opened PurchaseKeeps
  import opened Raffles
  import opened Rounding
  import opened TicketSelection
  import opened Tickets
  import opened Wrappers

  // ----- Acceptance -----

  /** The buyer's limit, the stock and the state of the raffle allow this many tickets. */
  predicate RoomFor(r: Raffle, buyer: nat, quantity: int) {
    && r.status == Active && !r.hidden && r.seller != buyer
    && 1 <= quantity
    && ActiveCount(r.tickets, buyer) + quantity <= r.total / 2
    && |r.tickets| + quantity <= r.total
  }

  /** Chosen numbers are different, exist and are free. */
  predicate FreeChoice(r: Raffle, numbers: seq<int>) {
    && Distinct(numbers)
    && forall n :: n in numbers ==> 1 <= n <= r.total && n !in UsedNumbers(r.tickets)
  }

  lemma RandomAccepted(r: Raffle, buyer: nat, q: Request)
    requires WithinLimits(r.tickets, r.total) && DrawsFit(r, buyer, q) && q.AtRandom?
    ensures PurchaseCheck(r, buyer, q).None? <==> RoomFor(r, buyer, q.quantity)
  {
    if r.status == Active && !r.hidden && r.seller != buyer {
      SelectionNeverShort(r, buyer, q);
    }
  }

  lemma ChosenAccepted(r: Raffle, buyer: nat, q: Request)
    requires DrawsFit(r, buyer, q) && q.Chosen?
    ensures PurchaseCheck(r, buyer, q).None? <==> RoomFor(r, buyer, |q.numbers|) && FreeChoice(r, q.numbers)
  {
  }

  /** A request is acceptable exactly when there is room for it and, for chosen numbers, they are free. */
  lemma AcceptedExactly(r: Raffle, buyer: nat, q: Request)
    requires WithinLimits(r.tickets, r.total) && DrawsFit(r, buyer, q)
    ensures PurchaseCheck(r, buyer, q).None? <==>
            RoomFor(r, buyer, RequestedCount(q)) && (q.Chosen? ==> FreeChoice(r, q.numbers))
  {
    if q.AtRandom? {
      RandomAccepted(r, buyer, q);
    } else {
      ChosenAccepted(r, buyer, q);
    }
  }

  // ----- The bill -----

  /** What the buyer pays and what the two discounts take off make up the gross price and the premium. */
  ghost predicate AddsUp(price: int, granted: int, requested: int, bonus: Option<BonusTerms>, bill: Bill) {
    && bill.charge + bill.packDiscount + bill.bonusDiscount == bill.gross + bill.premium
    && bill.gross == price * granted
    && bill.packDiscount == price * (granted - requested)
    && bill.bonusDiscount == BonusOn(bonus, granted == requested, bill.gross)
  }

  /** What a bonus takes off: the greatest discount its terms allow, and nothing when a pack was granted. */
  function BonusOn(bonus: Option<BonusTerms>, applies: bool, gross: int): int {
    if bonus.None? || !applies then 0
    else
      match BuildPreview(bonus.value, gross)
      case Success(p) => p.discount
      case Failure(_) => 0
  }

  /** The seller earns the gross price less the platform's rate of it, to the nearest cent. */
  predicate SellerShare(rate: real, bill: Bill) {
    Nearest(bill.gross - bill.sellerNet, bill.gross as real * rate)
  }

  /** Every chosen number costs the percentage of the price more, to the nearest cent; random ones do not. */
  predicate PremiumPerNumber(each: int, price: nat, percent: real) {
    Nearest(each, price as real * percent / 100.0)
  }

  ghost predicate PremiumRight(price: nat, percent: real, q: Request, premium: int) {
    match q
    case AtRandom(_, _) => premium == 0
    case Chosen(numbers) => exists each :: PremiumPerNumber(each, price, percent) && premium == each * |numbers|
  }

  ghost predicate BillIsRight(c: Config, r: Raffle, granted: int, q: Request, bonus: Option<BonusTerms>, bill: Bill) {
    && AddsUp(r.price, granted, RequestedCount(q), bonus, bill)
    && SellerShare(c.feeRate, bill)
    && PremiumRight(r.price, c.premium, q, bill.premium)
  }

  lemma BillAdds(c: Config, r: Raffle, buyer: nat, q: Request, bonus: Option<BonusTerms>)
    requires BillFor(c, r, PackFor(r, buyer, q), q, bonus).Success?
    ensures var pack := PackFor(r, buyer, q);
            AddsUp(r.price, pack.grantedQuantity, RequestedCount(q), bonus, BillFor(c, r, pack, q, bonus).value)
  {
    var pack := PackFor(r, buyer, q);
    assert pack.bonusQuantity == pack.grantedQuantity - RequestedCount(q);
    assert pack.packApplied <==> pack.grantedQuantity != RequestedCount(q);
    assert pack.bonusQuantity == 0 ==> r.price * pack.bonusQuantity == 0;
    BillUnfolds(c, r, pack, q, bonus);
  }

  lemma BillUnfolds(c: Config, r: Raffle, pack: PackEvaluation, q: Request, bonus: Option<BonusTerms>)
    requires BillFor(c, r, pack, q, bonus).Success?
    ensures var bill := BillFor(c, r, pack, q, bonus).value;
            && bill.gross == r.price * pack.grantedQuantity && bill.packDiscount == r.price * pack.bonusQuantity
            && bill.bonusDiscount == BonusOn(bonus, !pack.packApplied, bill.gross)
            && bill.charge == bill.gross + bill.premium
                              - (if bonus.Some? && !pack.packApplied then bill.bonusDiscount else bill.packDiscount)
  {
  }

  lemma BillShares(c: Config, r: Raffle, pack: PackEvaluation, q: Request, bonus: Option<BonusTerms>)
    requires BillFor(c, r, pack, q, bonus).Success?
    ensures SellerShare(c.feeRate, BillFor(c, r, pack, q, bonus).value)
  {
    var gross := r.price * pack.grantedQuantity;
    RoundNearest(gross as real * c.feeRate);
  }

  lemma BillTakesPremium(c: Config, r: Raffle, pack: PackEvaluation, q: Request, bonus: Option<BonusTerms>)
    requires BillFor(c, r, pack, q, bonus).Success?
    ensures BillFor(c, r, pack, q, bonus).value.premium == PremiumFor(c, r.price, q)
  {
  }

  lemma BillPremium(c: Config, price: nat, q: Request)
    ensures PremiumRight(price, c.premium, q, PremiumFor(c, price, q))
  {
    if q.Chosen? {
      RoundNearest(price as real * c.premium / 100.0);
      PremiumShown(price, c.premium, q, PremiumEach(c, price));
    }
  }

  lemma PremiumShown(price: nat, percent: real, q: Request, each: int)
    requires q.Chosen? && PremiumPerNumber(each, price, percent)
    ensures PremiumRight(price, percent, q, each * |q.numbers|)
  {
  }

  /** The amounts of every bill are right: they add up, the seller's share and the premium are what they should be. */
  lemma BillAddsUp(c: Config, r: Raffle, buyer: nat, q: Request, bonus: Option<BonusTerms>)
    requires BillFor(c, r, PackFor(r, buyer, q), q, bonus).Success?
    ensures var pack := PackFor(r, buyer, q);
            BillIsRight(c, r, pack.grantedQuantity, q, bonus, BillFor(c, r, pack, q, bonus).value)
  {
    BillAdds(c, r, buyer, q, bonus);
    BillShares(c, r, PackFor(r, buyer, q), q, bonus);
    BillTakesPremium(c, r, PackFor(r, buyer, q), q, bonus);
    BillPremium(c, r.price, q);
  }

  /** A bill is made unless a bonus applies to a gross amount at or below its minimum charge. */
  lemma BilledExactly(c: Config, r: Raffle, buyer: nat, q: Request, bonus: Option<BonusTerms>)
    ensures var pack := PackFor(r, buyer, q);
            BillFor(c, r, pack, q, bonus).Success? <==>
            (bonus.Some? && pack.grantedQuantity == RequestedCount(q) ==> r.price * pack.grantedQuantity > bonus.value.minCharge)
  {
  }

  // ----- The purchase -----

  /** The tickets sold and the money moved by a purchase, in terms of what was asked for and granted. */
  ghost predicate Purchased(d: Db, e: Db, i: nat, buyer: nat, granted: int, bill: Bill)
    requires i < |d.raffles|
  {
    var r := d.raffles[i];
    && |e.raffles| == |d.raffles| && |e.books.wallets| == |d.books.wallets|
    && buyer < |d.books.wallets| && r.seller < |d.books.wallets| && buyer != r.seller
    && granted >= 0 && |e.raffles[i].tickets| == |r.tickets| + granted
    && e.raffles[i].tickets[..|r.tickets|] == r.tickets
    && (forall k :: |r.tickets| <= k < |e.raffles[i].tickets| ==>
          && e.raffles[i].tickets[k].buyer == buyer && e.raffles[i].tickets[k].price == r.price
          && !e.raffles[i].tickets[k].refunded)
    && e.books.wallets[buyer].credit == d.books.wallets[buyer].credit - bill.charge
    && e.books.wallets[r.seller].payable == d.books.wallets[r.seller].payable + bill.sellerNet
  }

  /** A purchase is recorded with its charge and the seller's share, and with each discount the platform bears. */
  predicate Recorded(i: nat, buyer: nat, bill: Bill, txs: seq<Tx>) {
    && |txs| == 1 + Flag(bill.packDiscount > 0) + Flag(bill.bonusDiscount > 0)
    && txs[0] == Tx(TicketPurchase, buyer, bill.charge, bill.sellerNet, Some(i), None)
    && (bill.packDiscount > 0 ==> Tx(PackSubsidy, buyer, bill.packDiscount, bill.packDiscount, Some(i), None) in txs)
    && (bill.bonusDiscount > 0 ==>
          Tx(PromotionSubsidy, buyer, bill.bonusDiscount, bill.bonusDiscount, Some(i), None) in txs)
  }

  lemma PurchaseIsRecorded(d: Db, i: nat, buyer: nat, q: Request, bonus: Option<BonusTerms>)
    requires i < |d.raffles| && DrawsFit(d.raffles[i], buyer, q) && Buy(d, i, buyer, q, bonus).error.None?
    ensures var e := Buy(d, i, buyer, q, bonus).db;
            var bill := BillFor(d.config, d.raffles[i], PackFor(d.raffles[i], buyer, q), q, bonus);
            && bill.Success? && d.txs <= e.txs && Recorded(i, buyer, bill.value, e.txs[|d.txs|..])
  {
    var bill := BillFor(d.config, d.raffles[i], PackFor(d.raffles[i], buyer, q), q, bonus).value;
    assert Recorded(i, buyer, bill, PurchaseTxs(i, buyer, bill));
    assert Buy(d, i, buyer, q, bonus).db.txs[|d.txs|..] == PurchaseTxs(i, buyer, bill);
  }

  /** Every purchase that goes through sells the granted tickets for a bill that is right, and is recorded. */
  lemma PurchaseIsBilledRight(d: Db, i: nat, buyer: nat, q: Request, bonus: Option<BonusTerms>) returns (granted: nat, bill: Bill)
    requires Inv(d) && i < |d.raffles| && buyer < |d.books.wallets| && DrawsFit(d.raffles[i], buyer, q)
    requires Buy(d, i, buyer, q, bonus).error.None?
    ensures Offered(ModeOf(q), RequestedCount(q), granted)
    ensures BillIsRight(d.config, d.raffles[i], granted, q, bonus, bill)
    ensures Purchased(d, Buy(d, i, buyer, q, bonus).db, i, buyer, granted, bill)
    ensures var e := Buy(d, i, buyer, q, bonus).db; d.txs <= e.txs && Recorded(i, buyer, bill, e.txs[|d.txs|..])
  {
    var r := d.raffles[i];
    PurchaseIssuesTheGrant(d, i, buyer, q, bonus);
    PurchaseIsRecorded(d, i, buyer, q, bonus);
    BillAddsUp(d.config, r, buyer, q, bonus);
    AcceptedWithin(d, i, buyer, q);
    GrantIsLargestAllowed(ModeOf(q), RequestedCount(q), Stock(r), RemainingAllowed(r, buyer), 0);
    granted := PackFor(r, buyer, q).grantedQuantity;
    bill := BillFor(d.config, r, PackFor(r, buyer, q), q, bonus).value;
  }

  lemma AcceptedWithin(d: Db, i: nat, buyer: nat, q: Request)
    requires i < |d.raffles| && DrawsFit(d.raffles[i], buyer, q) && PurchaseCheck(d.raffles[i], buyer, q).None?
    ensures RequestedCount(q) <= Stock(d.raffles[i]) && RequestedCount(q) <= RemainingAllowed(d.raffles[i], buyer)
  {
  }

  lemma FreeGrant(price: int, granted: int, requested: int, bill: Bill)
    requires AddsUp(price, granted, requested, None, bill)
    ensures bill.charge == price * requested + bill.premium
  {
    assert price * granted - price * (granted - requested) == price * requested;
  }

  /** Without a bonus the buyer pays the price of what was asked for, and a premium per chosen number; pack tickets are free. */
  lemma PackTicketsAreFree(d: Db, i: nat, buyer: nat, q: Request) returns (bill: Bill)
    requires Inv(d) && i < |d.raffles| && buyer < |d.books.wallets| && DrawsFit(d.raffles[i], buyer, q)
    requires Buy(d, i, buyer, q, None).error.None?
    ensures PremiumRight(d.raffles[i].price, d.config.premium, q, bill.premium)
    ensures var e := Buy(d, i, buyer, q, None).db;
            && |e.books.wallets| == |d.books.wallets|
            && d.books.wallets[buyer].credit - e.books.wallets[buyer].credit
               == d.raffles[i].price * RequestedCount(q) + bill.premium
  {
    var granted: nat;
    granted, bill := PurchaseIsBilledRight(d, i, buyer, q, None);
    FreeGrant(d.raffles[i].price, granted, RequestedCount(q), bill);
  }

  // ----- The numbers -----

  /** The numbers of the tickets sold since. */
  function NewNumbers(before: seq<Ticket>, after: seq<Ticket>): seq<int> {
    if |after| < |before| then [] else Numbers(after[|before|..])
  }

  lemma NumbersAreIssued(d: Db, i: nat, buyer: nat, q: Request, bonus: Option<BonusTerms>)
    requires Inv(d) && i < |d.raffles| && buyer < |d.books.wallets| && DrawsFit(d.raffles[i], buyer, q)
    requires Buy(d, i, buyer, q, bonus).error.None?
    ensures var e := Buy(d, i, buyer, q, bonus).db;
            && |e.raffles| == |d.raffles|
            && NewNumbers(d.raffles[i].tickets, e.raffles[i].tickets) == ReservedNumbers(d.raffles[i], buyer, q)
  {
    var r := d.raffles[i];
    var ns := ReservedNumbers(r, buyer, q);
    PurchaseWrites(d, i, buyer, q, bonus);
    assert Bought(r.tickets, ns, buyer, r.price)[|r.tickets|..] == Issued(ns, buyer, r.price);
    assert Numbers(Issued(ns, buyer, r.price)) == ns;
  }

  /** Whoever chooses numbers gets exactly those, in that order. */
  lemma ChosenAreIssued(d: Db, i: nat, buyer: nat, numbers: seq<int>, bonus: Option<BonusTerms>)
    requires Inv(d) && i < |d.raffles| && buyer < |d.books.wallets|
    requires Buy(d, i, buyer, Chosen(numbers), bonus).error.None?
    ensures var e := Buy(d, i, buyer, Chosen(numbers), bonus).db;
            |e.raffles| == |d.raffles| && NewNumbers(d.raffles[i].tickets, e.raffles[i].tickets) == numbers
  {
    NumbersAreIssued(d, i, buyer, Chosen(numbers), bonus);
  }

  /** The purchase goes through with these random indexes and sells exactly these numbers, in this order. */
  ghost predicate Sells(d: Db, i: nat, buyer: nat, quantity: int, bonus: Option<BonusTerms>, draws: seq<nat>, sold: seq<int>)
    requires i < |d.raffles|
  {
    var q := AtRandom(quantity, draws);
    && DrawsFit(d.raffles[i], buyer, q)
    && Buy(d, i, buyer, q, bonus).error.None?
    && |Buy(d, i, buyer, q, bonus).db.raffles| == |d.raffles|
    && NewNumbers(d.raffles[i].tickets, Buy(d, i, buyer, q, bonus).db.raffles[i].tickets) == sold
  }

  lemma BillIgnoresDraws(c: Config, r: Raffle, pack: PackEvaluation, quantity: int, a: seq<nat>, b: seq<nat>, bonus: Option<BonusTerms>)
    ensures BillFor(c, r, pack, AtRandom(quantity, a), bonus) == BillFor(c, r, pack, AtRandom(quantity, b), bonus)
  {
    assert PremiumFor(c, r.price, AtRandom(quantity, a)) == PremiumFor(c, r.price, AtRandom(quantity, b));
  }

  /** Whether a random purchase goes through does not depend on the random indexes. */
  lemma SaleIgnoresDraws(d: Db, i: nat, buyer: nat, quantity: int, bonus: Option<BonusTerms>, a: seq<nat>, b: seq<nat>)
    requires Inv(d) && i < |d.raffles| && buyer < |d.books.wallets|
    requires DrawsFit(d.raffles[i], buyer, AtRandom(quantity, a)) && DrawsFit(d.raffles[i], buyer, AtRandom(quantity, b))
    ensures Buy(d, i, buyer, AtRandom(quantity, a), bonus).error.None?
            <==> Buy(d, i, buyer, AtRandom(quantity, b), bonus).error.None?
  {
    RowOf(d, i);
    var r := d.raffles[i];
    var qa, qb := AtRandom(quantity, a), AtRandom(quantity, b);
    RandomAccepted(r, buyer, qa);
    RandomAccepted(r, buyer, qb);
    BillIgnoresDraws(d.config, r, PackFor(r, buyer, qa), quantity, a, b, bonus);
    PurchaseSucceedsExactly(d, i, buyer, qa, bonus);
    PurchaseSucceedsExactly(d, i, buyer, qb, bonus);
  }

  /** A random purchase that goes through with some indexes sells the selection that its own indexes make. */
  lemma SellsItsSelection(d: Db, i: nat, buyer: nat, quantity: int, bonus: Option<BonusTerms>, some: seq<nat>, granted: nat,
                          draws: seq<nat>, sold: seq<int>)
    requires Inv(d) && i < |d.raffles| && buyer < |d.books.wallets|
    requires DrawsFit(d.raffles[i], buyer, AtRandom(quantity, some)) && Buy(d, i, buyer, AtRandom(quantity, some), bonus).error.None?
    requires granted == PackFor(d.raffles[i], buyer, AtRandom(quantity, some)).grantedQuantity
    ensures var free := Available(UsedNumbers(d.raffles[i].tickets), d.raffles[i].total);
            && granted <= |free|
            && (Sells(d, i, buyer, quantity, bonus, draws, sold) <==>
                ValidDraws(|free|, granted, draws) && Selected(free, draws) == sold)
  {
    var r := d.raffles[i];
    var q := AtRandom(quantity, draws);
    GrantFits(d, i, buyer, quantity, bonus, some);
    if DrawsFit(r, buyer, q) {
      SaleIgnoresDraws(d, i, buyer, quantity, bonus, some, draws);
      NumbersAreIssued(d, i, buyer, q, bonus);
    }
  }

  lemma GrantFits(d: Db, i: nat, buyer: nat, quantity: int, bonus: Option<BonusTerms>, draws: seq<nat>)
    requires Inv(d) && i < |d.raffles| && buyer < |d.books.wallets|
    requires DrawsFit(d.raffles[i], buyer, AtRandom(quantity, draws)) && Buy(d, i, buyer, AtRandom(quantity, draws), bonus).error.None?
    ensures var granted := PackFor(d.raffles[i], buyer, AtRandom(quantity, draws)).grantedQuantity;
            1 <= granted <= |Available(UsedNumbers(d.raffles[i].tickets), d.raffles[i].total)|
  {
    var r := d.raffles[i];
    var q := AtRandom(quantity, draws);
    RowOf(d, i);
    PurchaseSucceedsExactly(d, i, buyer, q, bonus);
    AcceptedWithin(d, i, buyer, q);
    RandomAccepted(r, buyer, q);
    GrantIsLargestAllowed(Random, quantity, Stock(r), RemainingAllowed(r, buyer), 0);
    FreeStock(r.tickets, r.total);
  }

  /** As many different free numbers of the raffle as were granted, in some order. */
  ghost predicate FreeList(r: Raffle, granted: int, sold: seq<int>) {
    && |sold| == granted && Distinct(sold)
    && forall n :: n in sold ==> 1 <= n <= r.total && n !in UsedNumbers(r.tickets)
  }

  /**
   A random purchase that goes through sells every ordered list of that many different free numbers for exactly
   one sequence of random indexes, and nothing else: all lists are equally likely.
   */
  lemma SaleIsUniform(d: Db, i: nat, buyer: nat, quantity: int, bonus: Option<BonusTerms>, some: seq<nat>, sold: seq<int>)
    requires Inv(d) && i < |d.raffles| && buyer < |d.books.wallets|
    requires DrawsFit(d.raffles[i], buyer, AtRandom(quantity, some)) && Buy(d, i, buyer, AtRandom(quantity, some), bonus).error.None?
    ensures var r := d.raffles[i];
            var granted := PackFor(r, buyer, AtRandom(quantity, some)).grantedQuantity;
            FreeList(r, granted, sold) <==> exists draws :: Sells(d, i, buyer, quantity, bonus, draws, sold)
    ensures forall a, b | Sells(d, i, buyer, quantity, bonus, a, sold) && Sells(d, i, buyer, quantity, bonus, b, sold) :: a == b
  {
    var r := d.raffles[i];
    var granted := PackFor(r, buyer, AtRandom(quantity, some)).grantedQuantity;
    var free := Available(UsedNumbers(r.tickets), r.total);
    GrantFits(d, i, buyer, quantity, bonus, some);
    AvailableIsExact(UsedNumbers(r.tickets), r.total);
    SelectionIsBijection(free, granted, sold);
    assert FreeList(r, granted, sold) <==> Arrangement(free, granted, sold);
    forall draws: seq<nat>
      ensures Sells(d, i, buyer, quantity, bonus, draws, sold) <==>
              ValidDraws(|free|, granted, draws) && Selected(free, draws) == sold
    {
      SellsItsSelection(d, i, buyer, quantity, bonus, some, granted, draws, sold);
    }
  }

  /** The net amount of a payout is the gross less the platform's rate, to the nearest cent. */
  lemma NetIsNearest(rate: real, gross: nat)
    ensures Nearest(NetOf(rate, gross), gross as real * (1.0 - rate))
  {
    RoundNearest(gross as real - gross as real * rate);
    assert gross as real * (1.0 - rate) == gross as real - gross as real * rate;
  }
}
