/**
 The whole market and every service call on it, as functions from the stored state and the outcome of
 the outside world to the new state and the error, if any. A call that fails halfway may still have
 changed something: that is why every step returns both.
 */
module Market {
  import opened DisputeMath
  import opened Journal
  import opened Ledger
  import opened PackRule
  import opened PromotionPricing
  import opened Raffles
  import opened Rounding
  import opened TicketSelection
  import opened Tickets
  import opened TopUps
  import opened Wrappers

  type Time = Raffles.Time

  const MIN_TICKETS := 10

  /** feeRate: the platform's share of a sale. premium: percentage charged for choosing numbers. */
  datatype Config = Config(feeRate: real, premium: real)

  datatype EventKey = PaymentEvent(payment: nat) | WebhookEvent(kind: nat, payment: nat)

  datatype Db = Db(
    config: Config,
    raffles: seq<Raffle>,
    books: Books,
    sessions: seq<Session>,
    txs: seq<Tx>,
    providerEvents: set<EventKey>)

  datatype Reply = Reply(db: Db, error: Option<Rejection>)

  /** Where the storage layer fails during a call, if it does. */
  datatype Fault = NoFault | EarlyFault | LateFault

  datatype ProviderOutcome = NotConnected | CallThrows | PayoutRejected | PayoutProcessing | PayoutCompleted

  datatype Outcome = Outcome(provider: ProviderOutcome, fault: Fault)

  function Ok(d: Db): Reply {
    Reply(d, None)
  }

  function Fail(d: Db, e: Rejection): Reply {
    Reply(d, Some(e))
  }

  function Initial(config: Config): Db {
    Db(config, [], Books([], []), [], [], {})
  }

  function SetRaffle(d: Db, i: nat, r: Raffle): Db
    requires i < |d.raffles|
  {
    d.(raffles := d.raffles[i := r])
  }

  function SetSession(d: Db, k: nat, s: Session): Db
    requires k < |d.sessions|
  {
    d.(sessions := d.sessions[k := s])
  }

  /** A step that only replaces one raffle row. */
  function RowStep(d: Db, i: nat, result: Result<Raffle, Rejection>): Reply
    requires i < |d.raffles|
  {
    match result
    case Success(r) => Ok(SetRaffle(d, i, r))
    case Failure(e) => Fail(d, e)
  }

  function OnRaffle(i: nat): Context {
    Context(Some(i), None, None, NoReason)
  }

  // ----- Accounts, raffles and prices -----

  function OpenWallet(d: Db): Reply {
    Ok(d.(books := d.books.(wallets := d.books.wallets + [Wallet(0, 0)])))
  }

  function CreateRaffle(d: Db, seller: nat, total: nat, price: nat, deadline: Time): Reply {
    if seller >= |d.books.wallets| then Fail(d, NotFound)
    else if total < MIN_TICKETS then Fail(d, BadQuantity)
    else if price == 0 then Fail(d, BadPrice)
    else Ok(d.(raffles := d.raffles + [Created(seller, total, price, deadline)]))
  }

  /** A cancelled raffle is relaunched as a new one; the old row stays as it is. */
  function Relaunch(d: Db, i: nat, user: nat, price: nat, deadline: Time): Reply {
    if i >= |d.raffles| then Fail(d, NotFound)
    else if d.raffles[i].seller != user then Fail(d, Forbidden)
    else if d.raffles[i].status != Cancelled then Fail(d, WrongState)
    else CreateRaffle(d, user, d.raffles[i].total, price, deadline)
  }

  function UpdatePrice(d: Db, i: nat, user: nat, price: nat): Reply {
    if i >= |d.raffles| then Fail(d, NotFound)
    else
      var r := d.raffles[i];
      if r.seller != user then Fail(d, Forbidden)
      else if r.status != Active then Fail(d, WrongState)
      else if price == 0 then Fail(d, BadPrice)
      else Ok(SetRaffle(d, i, r.(price := price)))
  }

  function ExtendDeadline(d: Db, i: nat, user: nat, deadline: Time, now: Time): Reply {
    if i >= |d.raffles| then Fail(d, NotFound)
    else
      var r := d.raffles[i];
      if r.seller != user then Fail(d, Forbidden)
      else if r.status != Active then Fail(d, WrongState)
      else if deadline <= now || deadline <= r.deadline then Fail(d, BadDeadline)
      else Ok(SetRaffle(d, i, r.(deadline := deadline)))
  }

  function SetHidden(d: Db, i: nat, hidden: bool): Reply {
    if i >= |d.raffles| then Fail(d, NotFound)
    else Ok(SetRaffle(d, i, d.raffles[i].(hidden := hidden)))
  }

  // ----- Buying tickets -----

  /** Quantity for a random purchase, the numbers themselves for a chosen one. */
  datatype Request = AtRandom(quantity: int, draws: seq<nat>) | Chosen(numbers: seq<int>)

  function ModeOf(q: Request): PurchaseMode {
    if q.AtRandom? then Random else ChooseNumbers
  }

  function RequestedCount(q: Request): int {
    match q case AtRandom(n, _) => n case Chosen(ns) => |ns|
  }

  function RemainingAllowed(r: Raffle, buyer: nat): int {
    var left := r.total / 2 - ActiveCount(r.tickets, buyer);
    if left > 0 then left else 0
  }

  function Stock(r: Raffle): int {
    r.total - |r.tickets|
  }

  function PackFor(r: Raffle, buyer: nat, q: Request): PackEvaluation {
    Evaluate(ModeOf(q), RequestedCount(q), Stock(r), RemainingAllowed(r, buyer))
  }

  /** The random source hands out one admissible index per ticket. */
  ghost predicate DrawsFit(r: Raffle, buyer: nat, q: Request) {
    q.AtRandom? ==>
      var free := Available(UsedNumbers(r.tickets), r.total);
      ValidDraws(|free|, DrawCount(PackFor(r, buyer, q).grantedQuantity, |free|), q.draws)
  }

  ghost function ReservedNumbers(r: Raffle, buyer: nat, q: Request): seq<int>
    requires DrawsFit(r, buyer, q)
  {
    match q
    case AtRandom(_, draws) => Selected(Available(UsedNumbers(r.tickets), r.total), draws)
    case Chosen(numbers) => numbers
  }

  ghost function PurchaseCheck(r: Raffle, buyer: nat, q: Request): Option<Rejection>
    requires DrawsFit(r, buyer, q)
  {
    if q.Chosen? && |q.numbers| == 0 then Some(BadQuantity)
    else if q.Chosen? && !Distinct(q.numbers) then Some(BadNumbers)
    else if r.status != Active then Some(WrongState)
    else if r.hidden then Some(WrongState)
    else if r.seller == buyer then Some(OwnRaffle)
    else if RequestedCount(q) < 1 then Some(BadQuantity)
    else if RequestedCount(q) > RemainingAllowed(r, buyer) then Some(OverBuyerLimit)
    else if RequestedCount(q) > Stock(r) then Some(OutOfStock)
    else if q.Chosen? && exists n :: n in q.numbers && !(1 <= n <= r.total) then Some(BadNumbers)
    else if q.Chosen? && exists n :: n in q.numbers && n in UsedNumbers(r.tickets) then Some(BadNumbers)
    else if |ReservedNumbers(r, buyer, q)| < PackFor(r, buyer, q).grantedQuantity then Some(OutOfStock)
    else None
  }

  /** Amounts of one purchase, in cents. */
  datatype Bill = Bill(gross: int, packDiscount: int, bonusDiscount: int, premium: int, charge: int, sellerNet: int)

  /** A rounded percentage of the price. */
  function PremiumEach(c: Config, price: nat): int {
    RoundHalfUp(price as real * c.premium / 100.0)
  }

  /** Each chosen number costs the premium; random ones do not. */
  function PremiumFor(c: Config, price: nat, q: Request): int {
    match q
    case AtRandom(_, _) => 0
    case Chosen(numbers) => PremiumEach(c, price) * |numbers|
  }

  /** The bonus is ignored when the pack applies; without either, the gross amount is charged. */
  function BillFor(c: Config, r: Raffle, pack: PackEvaluation, q: Request, bonus: Option<BonusTerms>)
    : Result<Bill, Rejection>
  {
    var gross := r.price * pack.grantedQuantity;
    var packDiscount := r.price * pack.bonusQuantity;
    var premium := PremiumFor(c, r.price, q);
    var sellerNet := gross - RoundHalfUp(gross as real * c.feeRate);
    if bonus.Some? && !pack.packApplied then
      match BuildPreview(bonus.value, gross)
      case Failure(_) => Failure(BadAmount)
      case Success(p) => Success(Bill(gross, packDiscount, p.discount, premium, p.charged + premium, sellerNet))
    else Success(Bill(gross, packDiscount, 0, premium, gross - packDiscount + premium, sellerNet))
  }

  function PurchaseTxs(i: nat, buyer: nat, bill: Bill): seq<Tx> {
    [Tx(TicketPurchase, buyer, bill.charge, bill.sellerNet, Some(i), None)]
    + (if bill.packDiscount > 0 then [Tx(PackSubsidy, buyer, bill.packDiscount, bill.packDiscount, Some(i), None)] else [])
    + (if bill.bonusDiscount > 0 then [Tx(PromotionSubsidy, buyer, bill.bonusDiscount, bill.bonusDiscount, Some(i), None)] else [])
  }

  /** Charge the buyer and credit the seller, or neither. */
  function PurchaseBooks(b: Books, i: nat, buyer: nat, seller: nat, bill: Bill): Result<Books, LedgerError> {
    match DebitUser(b, buyer, bill.charge, TicketPurchaseDebit, OnRaffle(i))
    case Failure(e) => Failure(e)
    case Success(charged) => CreditSeller(charged, seller, bill.sellerNet, OnRaffle(i))
  }

  ghost function Buy(d: Db, i: nat, buyer: nat, q: Request, bonus: Option<BonusTerms>): Reply
    requires i < |d.raffles| ==> DrawsFit(d.raffles[i], buyer, q)
  {
    if i >= |d.raffles| then Fail(d, NotFound)
    else
      var r := d.raffles[i];
      var refusal := PurchaseCheck(r, buyer, q);
      if refusal.Some? then Reply(d, refusal)
      else
        match BillFor(d.config, r, PackFor(r, buyer, q), q, bonus)
        case Failure(e) => Fail(d, e)
        case Success(bill) =>
          match PurchaseBooks(d.books, i, buyer, r.seller, bill)
          case Failure(_) => Fail(d, BadAmount)
          case Success(books) =>
            var bought := Bought(r.tickets, ReservedNumbers(r, buyer, q), buyer, r.price);
            Ok(SetRaffle(d, i, r.(tickets := bought)).(books := books, txs := d.txs + PurchaseTxs(i, buyer, bill)))
  }

  /** After a purchase: a raffle with every ticket paid is sold out and drawn at once. */
  function CheckCompletion(d: Db, i: nat, pick: nat, now: Time, fault: Fault): Reply {
    if i >= |d.raffles| then Ok(d)
    else
      var r := d.raffles[i];
      if PaidCount(r.tickets) < r.total then Ok(d)
      else
        var full := if r.status == Active then r.(status := SoldOut) else r;
        DrawIfEligible(SetRaffle(d, i, full), i, pick, now, fault)
  }

  // ----- Draw -----

  /** The draw commits first; the payout row is created afterwards and may be missing after a fault. */
  function DrawIfEligible(d: Db, i: nat, pick: nat, now: Time, fault: Fault): Reply {
    if i >= |d.raffles| then Ok(d)
    else
      match Draw(d.raffles[i], pick, now)
      case Failure(_) => Ok(d)
      case Success(r) =>
        if fault != NoFault then Fail(SetRaffle(d, i, r), StorageFault)
        else Ok(SetRaffle(d, i, WithPayout(d.config.feeRate, r)))
  }

  function SelectWinner(d: Db, i: nat, pick: nat, now: Time, fault: Fault): Reply {
    if i >= |d.raffles| then Fail(d, NotFound)
    else
      match Draw(d.raffles[i], pick, now)
      case Failure(e) => Fail(d, e)
      case Success(r) => Ok(SetRaffle(d, i, if fault != NoFault then r else WithPayout(d.config.feeRate, r)))
  }

  // ----- Expiry -----

  /** Buyers with paid tickets, in the order of their first one. */
  function PaidBuyers(tickets: seq<Ticket>): seq<nat> {
    if |tickets| == 0 then []
    else
      var last := tickets[|tickets| - 1];
      var before := PaidBuyers(tickets[..|tickets| - 1]);
      before + (if !last.refunded && last.buyer !in before then [last.buyer] else [])
  }

  /** One credit per buyer for the total of that buyer's paid tickets. */
  function RefundBuyers(b: Books, i: nat, tickets: seq<Ticket>, buyers: seq<nat>): Result<Books, LedgerError> {
    if |buyers| == 0 then Success(b)
    else
      var last := |buyers| - 1;
      match RefundBuyers(b, i, tickets, buyers[..last])
      case Failure(e) => Failure(e)
      case Success(before) =>
        CreditUser(before, buyers[last], PaidBy(tickets, buyers[last]), TicketPurchaseRefund, OnRaffle(i))
  }

  function RefundAllBooks(b: Books, i: nat, seller: nat, tickets: seq<Ticket>): Result<Books, LedgerError> {
    match RefundBuyers(b, i, tickets, PaidBuyers(tickets))
    case Failure(e) => Failure(e)
    case Success(credited) =>
      if PaidTotal(tickets) > 0
      then DebitSeller(credited, seller, PaidTotal(tickets), Context(Some(i), None, None, TicketRefund))
      else Success(credited)
  }

  /** Refund every paid ticket in one transaction. */
  function RefundTickets(d: Db, i: nat): Reply {
    if i >= |d.raffles| then Fail(d, NotFound)
    else
      var r := d.raffles[i];
      if r.releasedAt.Some? || (r.payout.Some? && r.payout.value.status == Completed) then Fail(d, AlreadyPaidOut)
      else
        match RefundAllBooks(d.books, i, r.seller, r.tickets)
        case Failure(_) => Fail(d, BadAmount)
        case Success(books) =>
          Ok(SetRaffle(d, i, r.(tickets := Marked(r.tickets, AllPaid(r.tickets)))).(books := books))
  }

  function CancelAndRefund(d: Db, i: nat): Reply {
    var reply := RefundTickets(d, i);
    if reply.error.Some? || i >= |reply.db.raffles| then reply
    else Ok(SetRaffle(reply.db, i, reply.db.raffles[i].(status := Cancelled)))
  }

  predicate Expires(r: Raffle, now: Time) {
    r.status == SoldOut || (r.status == Active && r.deadline < now)
  }

  /** Seventy percent sold is enough to draw an expired raffle. */
  predicate SoldEnough(r: Raffle) {
    10 * PaidCount(r.tickets) >= 7 * r.total
  }

  /** One round of the expiry task for one raffle. */
  function ProcessExpired(d: Db, i: nat, pick: nat, now: Time, fault: Fault): Reply {
    if i >= |d.raffles| || !Expires(d.raffles[i], now) then Ok(d)
    else if d.raffles[i].status == SoldOut || SoldEnough(d.raffles[i]) then DrawIfEligible(d, i, pick, now, fault)
    else CancelAndRefund(d, i)
  }

  // ----- Delivery -----

  function RejectWinnerStep(d: Db, i: nat): Reply {
    if i >= |d.raffles| then Fail(d, NotFound) else RowStep(d, i, RejectWinner(d.raffles[i]))
  }

  function CancelStep(d: Db, i: nat, user: nat): Reply {
    if i >= |d.raffles| then Fail(d, NotFound) else RowStep(d, i, Cancel(d.raffles[i], user))
  }

  function ShipStep(d: Db, i: nat, user: nat, now: Time): Reply {
    if i >= |d.raffles| then Fail(d, NotFound) else RowStep(d, i, Ship(d.raffles[i], user, now))
  }

  /** Scheduling creates the payout row when missing, then dates it a week after the confirmation. */
  function ScheduleRow(rate: real, r: Raffle, now: Time, fault: Fault): Raffle {
    var withPayout := WithPayout(rate, r);
    var at := (if r.confirmedAt.Some? then r.confirmedAt.value else now) + PROTECTION_DAYS * DAY;
    match fault
    case EarlyFault => r
    case LateFault => withPayout
    case NoFault => Scheduled(withPayout, at)
  }

  /** A fault while scheduling is swallowed: the delivery stays confirmed. */
  function ConfirmStep(d: Db, i: nat, user: nat, now: Time, fault: Fault): Reply {
    if i >= |d.raffles| then Fail(d, NotFound)
    else
      match Confirm(d.raffles[i], user, now)
      case Failure(e) => Fail(d, e)
      case Success(r) => Ok(SetRaffle(d, i, ScheduleRow(d.config.feeRate, r, now, fault)))
  }

  // ----- Disputes -----

  function OpenDisputeStep(d: Db, i: nat, user: nat, now: Time): Reply {
    if i >= |d.raffles| then Fail(d, NotFound) else RowStep(d, i, OpenDispute(d.raffles[i], user, now))
  }

  function RespondStep(d: Db, i: nat, user: nat, now: Time): Reply {
    if i >= |d.raffles| then Fail(d, NotFound) else RowStep(d, i, RespondDispute(d.raffles[i], user, now))
  }

  function EscalateStep(d: Db, i: nat, now: Time): Reply {
    if i >= |d.raffles| then Ok(d) else Ok(SetRaffle(d, i, Escalate(d.raffles[i], now)))
  }

  /** Positions of the tickets a dispute refund pays back in full. */
  function RefundedPositions(tickets: seq<Ticket>, buyer: nat, cents: int): seq<nat> {
    PaidPositionsValid(tickets, buyer);
    var positions := PaidPositions(tickets, buyer);
    positions[..Covered(Prices(tickets, positions), cents)]
  }

  /** Credit the buyer and debit the seller the same amount, or neither. */
  function DisputeBooks(b: Books, i: nat, buyer: nat, seller: nat, cents: int): Result<Books, LedgerError> {
    var context := Context(Some(i), None, None, DisputeResolution);
    match CreditUser(b, buyer, cents, TicketPurchaseRefund, context)
    case Failure(e) => Failure(e)
    case Success(credited) => DebitSeller(credited, seller, cents, context)
  }

  function DisputeRefund(d: Db, i: nat, buyer: nat, cents: int): Reply {
    if i >= |d.raffles| then Fail(d, NotFound)
    else
      var r := d.raffles[i];
      if r.releasedAt.Some? || (r.payout.Some? && r.payout.value.status == Completed) then Fail(d, AlreadyPaidOut)
      else if ActiveCount(r.tickets, buyer) == 0 then Fail(d, NoPaidTickets)
      else if cents > PaidBy(r.tickets, buyer) + 1 then Fail(d, RefundTooLarge)
      else
        match DisputeBooks(d.books, i, buyer, r.seller, cents)
        case Failure(_) => Fail(d, BadAmount)
        case Success(books) =>
          var marked := Marked(r.tickets, Members(RefundedPositions(r.tickets, buyer, cents)));
          Ok(SetRaffle(d, i, r.(tickets := marked)).(books := books))
  }

  function Resolve(d: Db, i: nat, decision: Decision, refund: Option<real>, seller: Option<real>, now: Time): Reply {
    if i >= |d.raffles| || d.raffles[i].dispute.None? then Fail(d, NotFound)
    else if !DisputeActive(d.raffles[i]) then Fail(d, WrongState)
    else
      var buyer := d.raffles[i].dispute.value.reporter;
      match SplitAmounts(decision, PaidBy(d.raffles[i].tickets, buyer), refund, seller)
      case Failure(_) => Fail(d, BadAmount)
      case Success(split) =>
        var refunded := if split.refund > 0 then DisputeRefund(d, i, buyer, split.refund) else Ok(d);
        if refunded.error.Some? || i >= |refunded.db.raffles| || refunded.db.raffles[i].dispute.None? then refunded
        else Ok(SetRaffle(refunded.db, i, CloseDispute(refunded.db.raffles[i], decision, split, now)))
  }

  predicate TimesOut(r: Raffle, now: Time) {
    && DisputeActive(r)
    && r.dispute.value.openedAt <= now - 15 * DAY
    && r.dispute.value.resolvedAt.None?
  }

  /** After fifteen days the dispute is resolved for the buyer with everything the buyer paid. */
  function AutoRefund(d: Db, i: nat, now: Time): Reply {
    if i >= |d.raffles| || !TimesOut(d.raffles[i], now) then Ok(d)
    else
      var paid := PaidBy(d.raffles[i].tickets, d.raffles[i].dispute.value.reporter);
      Resolve(d, i, ForBuyer, Some(paid as real), Some(0.0), now)
  }

  // ----- Payouts -----

  function OnPayout(i: nat, reason: Reason): Context {
    Context(Some(i), None, Some(i), reason)
  }

  predicate HasPayoutDebit(entries: seq<Entry>, i: nat) {
    exists k :: 0 <= k < |entries| && entries[k].context.payout == Some(i) && entries[k].kind == SellerPayableDebit
  }

  /** Give back what was debited, if anything was, and mark the payout as failed. */
  function FailPayout(d: Db, i: nat): Db
    requires i < |d.raffles| && d.raffles[i].payout.Some?
  {
    var r := d.raffles[i];
    var restored :=
      if HasPayoutDebit(d.books.entries, i)
      then CreditSeller(d.books, r.seller, r.payout.value.net, OnPayout(i, PayoutFailedReversal))
      else Success(d.books);
    match restored
    case Failure(_) => d
    case Success(books) => SetRaffle(d, i, PayoutSet(r, Failed)).(books := books)
  }

  function RecordAccepted(d: Db, i: nat): Result<Db, LedgerError>
    requires i < |d.raffles| && d.raffles[i].payout.Some?
  {
    var r := d.raffles[i];
    match DebitSeller(d.books, r.seller, r.payout.value.net, OnPayout(i, PayoutSettlement))
    case Failure(e) => Failure(e)
    case Success(books) => Success(SetRaffle(d, i, PayoutAccepted(r)).(books := books))
  }

  function CompletePayout(d: Db, i: nat, now: Time): Db
    requires i < |d.raffles| && d.raffles[i].payout.Some?
  {
    var r := d.raffles[i];
    var net := r.payout.value.net;
    SetRaffle(d, i, PayoutDone(r, now)).(txs := d.txs + [Tx(SellerPayment, r.seller, net, net, Some(i), None)])
  }

  function CoversPayout(d: Db, i: nat): bool
    requires i < |d.raffles| && d.raffles[i].payout.Some?
  {
    d.raffles[i].seller < |d.books.wallets|
    && d.raffles[i].payout.value.net <= d.books.wallets[d.raffles[i].seller].payable
  }

  /** The attempt on a payout already marked as processing. */
  function AttemptPayout(d: Db, i: nat, now: Time, outcome: Outcome): Reply
    requires i < |d.raffles| && d.raffles[i].payout.Some?
  {
    if outcome.provider == NotConnected then Fail(FailPayout(d, i), NoSellerAccount)
    else if !CoversPayout(d, i) then Fail(FailPayout(d, i), BadAmount)
    else if outcome.provider == CallThrows || outcome.provider == PayoutRejected then Fail(FailPayout(d, i), ProviderRefused)
    else if outcome.fault == EarlyFault then Fail(FailPayout(d, i), StorageFault)
    else
      match RecordAccepted(d, i)
      case Failure(_) => Fail(FailPayout(d, i), BadAmount)
      case Success(accepted) =>
        if outcome.fault == LateFault then Fail(FailPayout(accepted, i), StorageFault)
        else if outcome.provider == PayoutCompleted then Ok(CompletePayout(accepted, i, now))
        else Ok(accepted)
  }

  function ProcessPayout(d: Db, i: nat, now: Time, outcome: Outcome): Reply {
    if i >= |d.raffles| || d.raffles[i].payout.None? then Fail(d, NotFound)
    else if d.raffles[i].payout.value.status != Pending then Fail(d, PayoutNotPending)
    else if ReleaseHold(d.raffles[i], now).Some? then Fail(d, OnHold(ReleaseHold(d.raffles[i], now).value))
    else AttemptPayout(SetRaffle(d, i, PayoutSet(d.raffles[i], Processing)), i, now, outcome)
  }

  function ProcessPayoutForRaffle(d: Db, i: nat, now: Time, outcome: Outcome): Reply {
    if i >= |d.raffles| then Fail(d, NotFound)
    else
      var r := WithPayout(d.config.feeRate, d.raffles[i]);
      if r.payout.value.status == Completed then Ok(SetRaffle(d, i, r))
      else if r.payout.value.status == Processing then Fail(SetRaffle(d, i, r), PayoutInProgress)
      else
        var reopened := if r.payout.value.status == Failed then PayoutSet(r, Pending) else r;
        ProcessPayout(SetRaffle(d, i, Scheduled(reopened, now)), i, now, outcome)
  }

  /** The weekly release confirms the delivery itself and then tries to pay; a failure is only logged. */
  function AutoRelease(d: Db, i: nat, now: Time, outcome: Outcome): Reply {
    if i >= |d.raffles| || !AutoReleases(d.raffles[i], now) then Ok(d)
    else Ok(ProcessPayoutForRaffle(SetRaffle(d, i, AutoConfirm(d.raffles[i], now)), i, now, outcome).db)
  }

  function SyncPayout(d: Db, i: nat, now: Time, outcome: Outcome): Reply {
    if i >= |d.raffles| || d.raffles[i].payout.None? then Fail(d, NotFound)
    else if d.raffles[i].payout.value.status != Processing then Ok(d)
    else if !d.raffles[i].payout.value.accepted then Fail(d, NoProviderId)
    else
      match outcome.provider
      case NotConnected => Fail(d, ProviderRefused)
      case CallThrows => Fail(d, ProviderRefused)
      case PayoutProcessing => Ok(d)
      case PayoutCompleted =>
        if outcome.fault != NoFault then Fail(d, StorageFault) else Ok(CompletePayout(d, i, now))
      case PayoutRejected =>
        var r := d.raffles[i];
        match CreditSeller(d.books, r.seller, r.payout.value.net, OnPayout(i, PayoutFailedReversal))
        case Failure(_) => Fail(d, BadAmount)
        case Success(books) => Ok(SetRaffle(d, i, PayoutSet(r, Failed)).(books := books))
  }

  // ----- Credit top-ups -----

  function OnSession(k: nat): Context {
    Context(None, Some(k), None, NoReason)
  }

  function OpenSession(d: Db, user: nat, provider: Provider, reference: nat, orderId: Option<nat>, amount: real): Reply {
    if RoundHalfUp(amount) <= 0 then Fail(d, BadAmount)
    else if user >= |d.books.wallets| then Fail(d, NotFound)
    else Ok(d.(sessions := d.sessions + [Opened(user, provider, reference, orderId, RoundHalfUp(amount))]))
  }

  /** The session a notice is applied to: the stored row the lookup picked, if it matches. */
  predicate Finds(d: Db, n: Notice, found: Option<nat>) {
    found.Some? && found.value < |d.sessions| && Matches(d.sessions[found.value], n)
  }

  function ApproveSession(d: Db, k: nat, n: Notice, now: Time): Reply
    requires k < |d.sessions|
  {
    var s := d.sessions[k];
    if s.processedAt.Some? then Ok(d)
    else
      match CreditUser(d.books, s.user, n.amount, CreditTopUp, OnSession(k))
      case Failure(_) => Fail(d, BadAmount)
      case Success(books) =>
        Ok(SetSession(d, k, Credited(s, n, now)).(
           books := books, txs := d.txs + [Tx(CreditLoad, s.user, n.amount, n.amount, None, Some(k))]))
  }

  function SyncTopUp(d: Db, n: Notice, found: Option<nat>, now: Time): Reply {
    var applied :=
      if !Finds(d, n, found) then Ok(d)
      else if n.status == NoticeApproved then ApproveSession(d, found.value, n, now)
      else Ok(SetSession(d, found.value, Updated(d.sessions[found.value], n, now)));
    if applied.error.Some? then applied
    else Ok(applied.db.(providerEvents := applied.db.providerEvents + {PaymentEvent(n.paymentId)}))
  }

  /** A webhook already seen is ignored; the key is stored only after the sync succeeded. */
  function Webhook(d: Db, kind: nat, n: Notice, found: Option<nat>, now: Time): Reply {
    var key := WebhookEvent(kind, n.paymentId);
    if key in d.providerEvents then Ok(d)
    else
      var synced := SyncTopUp(d, n, found, now);
      if synced.error.Some? then synced
      else Ok(synced.db.(providerEvents := synced.db.providerEvents + {key}))
  }

  datatype MockAction = MockApprove | MockPend | MockReject | MockExpire

  function MockStep(d: Db, k: nat, action: MockAction, now: Time): Reply {
    if k >= |d.sessions| || d.sessions[k].provider != Mock then Fail(d, NotFound)
    else
      var s := d.sessions[k];
      match action
      case MockPend => Ok(SetSession(d, k, s.(status := AwaitingPayment)))
      case MockReject => Ok(SetSession(d, k, Closed(s, Declined, now)))
      case MockExpire => Ok(SetSession(d, k, Closed(s, Expired, now)))
      case MockApprove =>
        if s.processedAt.Some? then Ok(d)
        else if s.status == Declined || s.status == Expired || s.status == RefundedInFull || s.status == RefundedInPart
        then Fail(d, WrongState)
        else ApproveSession(d, k, Notice(k, NoticeApproved, s.amount, Some(s.reference), s.orderId), now)
  }

  /** What to give back: the amount asked for, everything that is left when absent. */
  function RefundCents(s: Session, amount: Option<real>): int {
    if amount.Some? then RoundHalfUp(amount.value) else s.credited - s.refunded
  }

  /** providerOk: the provider accepts the refund. */
  function RefundTopUp(d: Db, k: nat, amount: Option<real>, providerOk: bool): Reply {
    if k >= |d.sessions| || d.sessions[k].status != Approved then Fail(d, NotApproved)
    else
      var s := d.sessions[k];
      var remaining := s.credited - s.refunded;
      var cents := RefundCents(s, amount);
      if cents <= 0 then Fail(d, BadAmount)
      else if cents > remaining then Fail(d, RefundTooLarge)
      else if s.user >= |d.books.wallets| || cents > d.books.wallets[s.user].credit then Fail(d, RefundTooLarge)
      else if s.provider == MercadoPago && (s.paymentId.None? || !providerOk) then Fail(d, ProviderRefused)
      else
        match DebitUser(d.books, s.user, cents, CreditTopUpRefund, OnSession(k))
        case Failure(_) => Fail(d, BadAmount)
        case Success(books) => Ok(SetSession(d, k, AfterRefund(s, cents)).(books := books))
  }
}
