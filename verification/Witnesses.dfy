/** Concrete runs in which a call does not do what its name promises, one for each exact condition. */
module Witnesses {
  import opened DisputeMath
  import opened ExactConditions
  import opened Journal
  import opened Ledger
  import opened Market
  import opened PackRule
  import opened PromotionPricing
  import opened Raffles
  import opened Rounding
  import opened Rounds
  import opened Runs
  import Theorems
  import opened TicketSelection
  import opened Tickets
  import opened TopUps
  import opened Wrappers

  const TENTH := Config(0.1, 0.0)

  lemma EmptyReached()
    ensures Reached(Initial(TENTH), 0)
  {
    assert Chronological(0, []);
    assert ReachedBy(Initial(TENTH), 0, TENTH, 0, []);
  }

  /** One more event leads from a reachable state to a reachable state. */
  lemma OneMore(d: Db, clock: Time, e: Event, next: Db)
    requires Reached(d, clock) && clock <= e.at && next == Apply(d, e)
    ensures Reached(next, e.at)
  {
    ReachedOn(d, clock, [e]);
    assert Fold(d, 0, Script([e])) == d;
    assert Fold(d, 1, Script([e])) == Script([e])(d, 0);
  }

  // Two users; user 1 has loaded ten units of currency.
  const APPROVAL := Notice(5, NoticeApproved, 1000, Some(7), None)
  const LOADED := Session(1, MercadoPago, 7, None, Some(5), 1000, 1000, 0, Approved, Some(0))
  const LOAD := Entry(1, CreditTopUp, 1000, 1000, 0, Context(None, Some(0), None, NoReason))

  function TwoUsers(): Db {
    Initial(TENTH).(books := Books([Wallet(0, 0), Wallet(0, 0)], []))
  }

  function Started(): Db {
    TwoUsers().(sessions := [Opened(1, MercadoPago, 7, None, 1000)])
  }

  function Funded(): Db {
    TwoUsers().(
    books := Books([Wallet(0, 0), Wallet(1000, 0)], [LOAD]),
    sessions := [LOADED],
    txs := [Tx(CreditLoad, 1, 1000, 1000, None, Some(0))],
    providerEvents := {PaymentEvent(5)})
  }

  lemma StartedReached()
    ensures Reached(Started(), 0)
  {
    EmptyReached();
    var one := Initial(TENTH).(books := Books([Wallet(0, 0)], []));
    OneMore(Initial(TENTH), 0, Event(0, OnCatalogue(0, SignUp)), one);
    assert one.books.wallets + [Wallet(0, 0)] == [Wallet(0, 0), Wallet(0, 0)];
    OneMore(one, 0, Event(0, OnCatalogue(0, SignUp)), TwoUsers());
    StartApplies();
    OneMore(TwoUsers(), 0, Event(0, OnTopUp(Start(1, MercadoPago, 7, None, 1000.0))), Started());
  }

  lemma StartApplies()
    ensures Apply(TwoUsers(), Event(0, OnTopUp(Start(1, MercadoPago, 7, None, 1000.0)))) == Started()
  {
  }

  lemma FundedReached()
    ensures Reached(Funded(), 0)
  {
    StartedReached();
    ApprovalApplies();
    OneMore(Started(), 0, Event(0, OnTopUp(Sync(APPROVAL, Some(0)))), Funded());
  }

  lemma ApprovalApplies()
    ensures Apply(Started(), Event(0, OnTopUp(Sync(APPROVAL, Some(0))))) == Funded()
  {
    assert Matches(Started().sessions[0], APPROVAL);
  }

  // ----- A top-up that was pending first -----

  const EARLY := Notice(5, NoticePending, 1000, Some(7), None)

  /** Reported as pending and then as approved, the same payment is never credited. */
  lemma PaidButNotCredited()
    ensures var pending := SyncTopUp(Started(), EARLY, Some(0), 0).db;
            var approved := SyncTopUp(pending, APPROVAL, Some(0), 1);
            && Reached(Started(), 0) && Reached(pending, 0)
            && approved.error.None?
            && |approved.db.sessions| == 1 && approved.db.sessions[0].credited == 0
            && approved.db.books == TwoUsers().books
  {
    StartedReached();
    assert Matches(Started().sessions[0], EARLY);
    var pending := SyncTopUp(Started(), EARLY, Some(0), 0).db;
    assert Matches(pending.sessions[0], APPROVAL);
    OneMore(Started(), 0, Event(0, OnTopUp(Sync(EARLY, Some(0)))), pending);
  }

  // ----- A raffle of ten tickets at one hundred cents, one of them sold -----

  const OFFER := Created(0, 10, 100, 10)
  const CHARGE := Entry(1, TicketPurchaseDebit, -100, 900, 0, Context(Some(0), None, None, NoReason))
  const SHARE := Entry(0, SellerPayableCredit, 90, 0, 90, Context(Some(0), None, None, NoReason))

  function Offered(): Db {
    Funded().(raffles := [OFFER])
  }

  function SoldRow(): Raffle {
    OFFER.(tickets := [Tickets.Ticket(1, 1, 100, false)])
  }

  function Sold(): Db {
    Funded().(
    raffles := [SoldRow()],
    books := Books([Wallet(0, 90), Wallet(900, 0)], [LOAD, CHARGE, SHARE]),
    txs := Funded().txs + [Tx(TicketPurchase, 1, 100, 90, Some(0), None)])
  }

  lemma FeeOfHundred()
    ensures RoundHalfUp(100.0 * 0.1) == 10 && NetOf(0.1, 100) == 90
  {
  }

  lemma SaleApplies()
    ensures DrawsFit(OFFER, 1, Chosen([1])) && Buy(Offered(), 0, 1, Chosen([1]), None).db == Sold()
  {
    SaleAccepted();
    SaleBill();
    SaleTicket();
    SaleBooks();
    BuyWrites(Offered(), 0, 1, Chosen([1]), None, Bill(100, 0, 0, 0, 100, 90), Sold().books);
    assert [OFFER][0 := SoldRow()] == [SoldRow()];
  }

  lemma BuyWrites(d: Db, i: nat, buyer: nat, q: Request, bonus: Option<BonusTerms>, bill: Bill, books: Books)
    requires i < |d.raffles| && DrawsFit(d.raffles[i], buyer, q) && PurchaseCheck(d.raffles[i], buyer, q).None?
    requires BillFor(d.config, d.raffles[i], PackFor(d.raffles[i], buyer, q), q, bonus) == Success(bill)
    requires PurchaseBooks(d.books, i, buyer, d.raffles[i].seller, bill) == Success(books)
    ensures var r := d.raffles[i];
            Buy(d, i, buyer, q, bonus).db
            == SetRaffle(d, i, r.(tickets := Bought(r.tickets, ReservedNumbers(r, buyer, q), buyer, r.price))).(
               books := books, txs := d.txs + PurchaseTxs(i, buyer, bill))
  {
  }

  lemma SaleAccepted()
    ensures DrawsFit(OFFER, 1, Chosen([1])) && PurchaseCheck(OFFER, 1, Chosen([1])).None?
  {
    assert UsedNumbers(OFFER.tickets) == {};
    assert Distinct([1]);
  }

  lemma SaleBill()
    ensures BillFor(TENTH, OFFER, PackFor(OFFER, 1, Chosen([1])), Chosen([1]), None) == Success(Bill(100, 0, 0, 0, 100, 90))
    ensures PurchaseTxs(0, 1, Bill(100, 0, 0, 0, 100, 90)) == [Tx(TicketPurchase, 1, 100, 90, Some(0), None)]
  {
    FeeOfHundred();
    NoPremium();
    assert PackFor(OFFER, 1, Chosen([1])) == PackEvaluation(1, 0, 1, false, None);
  }

  lemma NoPremium()
    ensures PremiumFor(TENTH, 100, Chosen([1])) == 0
  {
    assert 100.0 * 0.0 / 100.0 == 0.0;
    assert PremiumEach(TENTH, 100) == 0;
  }

  lemma SaleTicket()
    ensures Bought([], [1], 1, 100) == [Tickets.Ticket(1, 1, 100, false)]
  {
    var sold := Bought([], [1], 1, 100);
    assert |sold| == 1 && sold[0] == Tickets.Ticket(1, 1, 100, false);
  }

  lemma SaleBooks()
    ensures PurchaseBooks(Funded().books, 0, 1, 0, Bill(100, 0, 0, 0, 100, 90)) == Success(Sold().books)
  {
    var charged := Books([Wallet(0, 0), Wallet(900, 0)], [LOAD, CHARGE]);
    assert [Wallet(0, 0), Wallet(1000, 0)][1 := Wallet(900, 0)] == charged.wallets;
    assert [LOAD] + [CHARGE] == charged.entries;
    assert DebitUser(Funded().books, 1, 100, TicketPurchaseDebit, OnRaffle(0)) == Success(charged);
    assert charged.wallets[0 := Wallet(0, 90)] == Sold().books.wallets;
    assert charged.entries + [SHARE] == Sold().books.entries;
  }

  lemma SoldReached()
    ensures Reached(Sold(), 0)
  {
    FundedReached();
    OneMore(Funded(), 0, Event(0, OnCatalogue(0, Publish(0, 10, 100, 10))), Offered());
    SaleApplies();
    OneMore(Offered(), 0, Event(0, OnRaffleRow(0, Purchase(1, Chosen([1]), None))), Sold());
  }

  /** The deadline is past and too few tickets are sold, but the fee is missing: nothing is refunded or cancelled. */
  lemma ExpiredButNotRefunded(pick: nat, fault: Fault)
    ensures Reached(Sold(), 0) && Expires(Sold().raffles[0], 11) && !SoldEnough(Sold().raffles[0])
    ensures ProcessExpired(Sold(), 0, pick, 11, fault).db == Sold()
  {
    SoldReached();
    ReachedHealthy(Sold(), 0);
    assert SoldRow().tickets[..0] == [];
    FeeBlocksCancellation(Sold(), 0, pick, 11, fault);
  }

  // ----- Drawn, and disputed by the winner -----

  function DisputedRow(): Raffle {
    SoldRow().(
    status := Drawn, winner := Some(1), drawnAt := Some(0), drawResult := Some(0),
    payout := Some(Payout(90, Pending, None, false)),
    delivery := Disputed, dispute := Some(Dispute(1, Open, 0, 0, 0, None, None)))
  }

  function DrawnRow(): Raffle {
    DisputedRow().(delivery := NotShipped, dispute := None)
  }

  function InDispute(): Db {
    Sold().(raffles := [DisputedRow()])
  }

  lemma DrawApplies()
    ensures SelectWinner(Sold(), 0, 0, 0, NoFault).db == Sold().(raffles := [DrawnRow()])
  {
    FeeOfHundred();
    assert SoldRow().tickets[..0] == [];
    assert PaidCount(SoldRow().tickets) == 1 && PaidTotal(SoldRow().tickets) == 100;
  }

  lemma InDisputeReached()
    ensures Reached(InDispute(), 0)
  {
    SoldReached();
    DrawApplies();
    OneMore(Sold(), 0, Event(0, OnRaffleRow(0, AdminDraw(0, NoFault))), Sold().(raffles := [DrawnRow()]));
    OneMore(Sold().(raffles := [DrawnRow()]), 0, Event(0, OnDispute(0, OpenedBy(1))), InDispute());
  }

  lemma OneTicketPaid()
    ensures PaidBy(DisputedRow().tickets, 1) == 100 && ActiveCount(DisputedRow().tickets, 1) == 1
  {
    assert DisputedRow().tickets[..0] == [];
  }

  /** Fifteen days later the automatic refund is due and refused: the buyer is owed more than the seller received. */
  lemma TimedOutButNotRefunded()
    ensures Reached(InDispute(), 0) && TimesOut(InDispute().raffles[0], 15 * DAY)
    ensures AutoRefund(InDispute(), 0, 15 * DAY).error.Some? && AutoRefund(InDispute(), 0, 15 * DAY).db == InDispute()
  {
    InDisputeReached();
    ReachedHealthy(InDispute(), 0);
    OneTicketPaid();
    TimeoutRefundsEverything(InDispute(), 0, 15 * DAY);
  }

  function WonBySeller(): Db {
    InDispute().(raffles := [CloseDispute(DisputedRow(), ForSeller, Split(0, 100), 1)])
  }

  /** The seller wins the dispute, and the payout row that waits for the seller is never paid. */
  lemma WonButNeverPaid(more: seq<Event>)
    requires Chronological(1, more)
    ensures Reached(WonBySeller(), 1) && WonBySeller().raffles[0].payout == Some(Payout(90, Pending, None, false))
    ensures Theorems.NeverPaid(Run(WonBySeller(), more), 0)
  {
    InDisputeReached();
    OneTicketPaid();
    DefaultsSplitExactly(100, 1);
    OneMore(InDispute(), 0, Event(1, OnDispute(0, Resolution(ForSeller, None, None))), WonBySeller());
    ReachedHealthy(WonBySeller(), 1);
    WinningSellerIsNeverPaid(WonBySeller(), 1, more, 0, 1, Outcome(PayoutCompleted, NoFault));
  }

  function Cancelled(): Db {
    InDispute().(raffles := [DisputedRow().(status := RaffleStatus.Cancelled, winner := None, drawnAt := None)])
  }

  lemma CancelledReached()
    ensures Reached(Cancelled(), 1)
  {
    InDisputeReached();
    var rejected := InDispute().(raffles := [DisputedRow().(status := Active, winner := None, drawnAt := None)]);
    OneMore(InDispute(), 0, Event(1, OnRaffleRow(0, WinnerRejected)), rejected);
    OneMore(rejected, 1, Event(1, OnRaffleRow(0, CancelledBy(0))), Cancelled());
  }

  /** Rejected winner, cancelled raffle, and still the open dispute finishes it, without any winner. */
  lemma FinishedWithoutWinner()
    ensures var e := Resolve(Cancelled(), 0, ForSeller, None, None, 2).db;
            Reached(e, 2) && |e.raffles| == 1 && e.raffles[0].status == Finalised && e.raffles[0].winner.None?
  {
    CancelledReached();
    OneTicketPaid();
    DefaultsSplitExactly(100, 1);
    var e := Resolve(Cancelled(), 0, ForSeller, None, None, 2).db;
    OneMore(Cancelled(), 1, Event(2, OnDispute(0, Resolution(ForSeller, None, None))), e);
  }
}
