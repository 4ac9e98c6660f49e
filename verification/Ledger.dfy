/**
 Wallets and the append-only ledger behind them. Every movement changes one balance of one wallet and
 appends one signed entry; the results say that balances, entries and the stamps on the entries agree.
 */
module Ledger {
  import opened Wrappers

  datatype EntryKind =
    | CreditTopUp
    | CreditTopUpRefund
    | TicketPurchaseDebit
    | TicketPurchaseRefund
    | SellerPayableCredit
    | SellerPayableDebit

  datatype Reason = NoReason | DisputeResolution | TicketRefund | PayoutSettlement | PayoutFailedReversal

  datatype Context = Context(raffle: Option<nat>, topUp: Option<nat>, payout: Option<nat>, reason: Reason)

  /** Amounts are signed cents; a payout is named by the raffle it belongs to. */
  datatype Entry = Entry(
    user: nat,
    kind: EntryKind,
    amount: int,
    creditAfter: int,
    payableAfter: int,
    context: Context)

  datatype Wallet = Wallet(credit: int, payable: int)

  datatype Books = Books(wallets: seq<Wallet>, entries: seq<Entry>)

  datatype LedgerError = UnknownUser | AmountNotPositive | InsufficientBalance

  predicate OnCredit(kind: EntryKind) {
    kind != SellerPayableCredit && kind != SellerPayableDebit
  }

  function Moved(w: Wallet, kind: EntryKind, amount: int): Wallet {
    if OnCredit(kind) then w.(credit := w.credit + amount) else w.(payable := w.payable + amount)
  }

  function EntryFor(w: Wallet, user: nat, kind: EntryKind, amount: int, context: Context): Entry {
    var after := Moved(w, kind, amount);
    Entry(user, kind, amount, after.credit, after.payable, context)
  }

  function Post(b: Books, user: nat, kind: EntryKind, amount: int, context: Context): Books
    requires user < |b.wallets|
  {
    Books(b.wallets[user := Moved(b.wallets[user], kind, amount)],
          b.entries + [EntryFor(b.wallets[user], user, kind, amount, context)])
  }

  function CreditUser(b: Books, user: nat, amount: int, kind: EntryKind, context: Context): Result<Books, LedgerError>
    requires OnCredit(kind)
  {
    if amount <= 0 then Failure(AmountNotPositive)
    else if user >= |b.wallets| then Failure(UnknownUser)
    else Success(Post(b, user, kind, amount, context))
  }

  function DebitUser(b: Books, user: nat, amount: int, kind: EntryKind, context: Context): Result<Books, LedgerError>
    requires OnCredit(kind)
  {
    if amount <= 0 then Failure(AmountNotPositive)
    else if user >= |b.wallets| then Failure(UnknownUser)
    else if b.wallets[user].credit < amount then Failure(InsufficientBalance)
    else Success(Post(b, user, kind, -amount, context))
  }

  function CreditSeller(b: Books, seller: nat, amount: int, context: Context): Result<Books, LedgerError> {
    if amount <= 0 then Failure(AmountNotPositive)
    else if seller >= |b.wallets| then Failure(UnknownUser)
    else Success(Post(b, seller, SellerPayableCredit, amount, context))
  }

  function DebitSeller(b: Books, seller: nat, amount: int, context: Context): Result<Books, LedgerError> {
    if amount <= 0 then Failure(AmountNotPositive)
    else if seller >= |b.wallets| then Failure(UnknownUser)
    else if b.wallets[seller].payable < amount then Failure(InsufficientBalance)
    else Success(Post(b, seller, SellerPayableDebit, -amount, context))
  }

  // ----- Accounts: the sums that can be read off the ledger -----

  datatype Account =
    | Credit(user: nat)
    | Payable(user: nat)
    | PayoutNet(raffle: nat)                // signed seller-payable movements of a payout
    | PayoutDebits(raffle: nat)             // how many debits a payout recorded
    | RefundTo(raffle: nat, buyer: nat)     // ticket money given back to one buyer of a raffle
    | DisputeRefunds(raffle: nat)           // how many dispute refunds a raffle had
    | TopUpCredit(session: nat)
    | TopUpCredits(session: nat)            // how many credits a top-up session produced
    | TopUpRefund(session: nat)
    | TopUpRefunds(session: nat)            // how many refunds a top-up session produced
    | Everything

  function If(condition: bool, amount: int): int {
    if condition then amount else 0
  }

  function Contribution(e: Entry, a: Account): int {
    match a
    case Credit(u) => If(e.user == u && OnCredit(e.kind), e.amount)
    case Payable(u) => If(e.user == u && !OnCredit(e.kind), e.amount)
    case PayoutNet(i) => If(e.context.payout == Some(i), e.amount)
    case PayoutDebits(i) => If(e.context.payout == Some(i) && e.kind == SellerPayableDebit, 1)
    case RefundTo(i, u) =>
      If(e.context.raffle == Some(i) && e.user == u && e.kind == TicketPurchaseRefund, e.amount)
    case DisputeRefunds(i) =>
      If(e.context.raffle == Some(i) && e.kind == TicketPurchaseRefund && e.context.reason == DisputeResolution, 1)
    case TopUpCredit(s) => If(e.context.topUp == Some(s) && e.kind == CreditTopUp, e.amount)
    case TopUpCredits(s) => If(e.context.topUp == Some(s) && e.kind == CreditTopUp, 1)
    case TopUpRefund(s) => If(e.context.topUp == Some(s) && e.kind == CreditTopUpRefund, e.amount)
    case TopUpRefunds(s) => If(e.context.topUp == Some(s) && e.kind == CreditTopUpRefund, 1)
    case Everything => e.amount
  }

  function Balance(entries: seq<Entry>, a: Account): int {
    if |entries| == 0 then 0
    else Balance(entries[..|entries| - 1], a) + Contribution(entries[|entries| - 1], a)
  }

  lemma BalanceAppend(entries: seq<Entry>, e: Entry, a: Account)
    ensures Balance(entries + [e], a) == Balance(entries, a) + Contribution(e, a)
  {
    assert (entries + [e])[..|entries|] == entries;
  }

  /** A payout debit exists in the ledger exactly when the count of payout debits is positive. */
  lemma {:induction false} DebitExists(entries: seq<Entry>, i: nat)
    ensures Balance(entries, PayoutDebits(i)) >= 0
    ensures Balance(entries, PayoutDebits(i)) > 0 <==>
            exists k :: 0 <= k < |entries| && entries[k].context.payout == Some(i) && entries[k].kind == SellerPayableDebit
  {
    if |entries| > 0 {
      var last := |entries| - 1;
      DebitExists(entries[..last], i);
      if Balance(entries[..last], PayoutDebits(i)) > 0 {
        var k :| 0 <= k < last && entries[..last][k].context.payout == Some(i) && entries[..last][k].kind == SellerPayableDebit;
        assert entries[k].context.payout == Some(i);
      }
      forall k | 0 <= k < last && entries[k].context.payout == Some(i) && entries[k].kind == SellerPayableDebit
        ensures Balance(entries[..last], PayoutDebits(i)) > 0
      {
        assert entries[..last][k] == entries[k];
      }
    }
  }

  function TotalMoney(wallets: seq<Wallet>): int {
    if |wallets| == 0 then 0
    else TotalMoney(wallets[..|wallets| - 1]) + wallets[|wallets| - 1].credit + wallets[|wallets| - 1].payable
  }

  lemma {:induction false} TotalAfterUpdate(wallets: seq<Wallet>, u: nat, w: Wallet)
    requires u < |wallets|
    ensures TotalMoney(wallets[u := w])
         == TotalMoney(wallets) - wallets[u].credit - wallets[u].payable + w.credit + w.payable
  {
    var last := |wallets| - 1;
    if u == last {
      assert wallets[u := w][..last] == wallets[..last];
    } else {
      assert wallets[u := w][..last] == wallets[..last][u := w];
      TotalAfterUpdate(wallets[..last], u, w);
    }
  }

  // ----- What the books promise -----

  /** Balances equal the fold of the ledger, wallet by wallet, and are never negative. */
  ghost predicate Balanced(b: Books) {
    && (forall u: nat :: u < |b.wallets| ==>
          && b.wallets[u].credit == Balance(b.entries, Credit(u)) >= 0
          && b.wallets[u].payable == Balance(b.entries, Payable(u)) >= 0)
    && (forall u: nat :: u >= |b.wallets| ==> Balance(b.entries, Credit(u)) == Balance(b.entries, Payable(u)) == 0)
  }

  /** Each entry carries the balances its wallet had right after it. */
  ghost predicate Stamped(entries: seq<Entry>) {
    forall k :: 0 <= k < |entries| ==>
      && entries[k].creditAfter == Balance(entries[..k + 1], Credit(entries[k].user)) >= 0
      && entries[k].payableAfter == Balance(entries[..k + 1], Payable(entries[k].user)) >= 0
  }

  ghost predicate Kept(b: Books) {
    && Balanced(b)
    && Stamped(b.entries)
    && TotalMoney(b.wallets) == Balance(b.entries, Everything)
  }

  lemma StampedAppend(entries: seq<Entry>, e: Entry)
    requires Stamped(entries)
    requires e.creditAfter == Balance(entries + [e], Credit(e.user)) >= 0
    requires e.payableAfter == Balance(entries + [e], Payable(e.user)) >= 0
    ensures Stamped(entries + [e])
  {
    var next := entries + [e];
    forall k | 0 <= k < |next|
      ensures next[k].creditAfter == Balance(next[..k + 1], Credit(next[k].user)) >= 0
      ensures next[k].payableAfter == Balance(next[..k + 1], Payable(next[k].user)) >= 0
    {
      if k < |entries| {
        assert next[..k + 1] == entries[..k + 1];
      } else {
        assert next[..k + 1] == next;
      }
    }
  }

  lemma BalancedAppend(b: Books, user: nat, kind: EntryKind, amount: int, context: Context)
    requires Balanced(b) && user < |b.wallets|
    requires var w := Moved(b.wallets[user], kind, amount); w.credit >= 0 && w.payable >= 0
    ensures Balanced(Post(b, user, kind, amount, context))
  {
    var next := Post(b, user, kind, amount, context);
    var e := EntryFor(b.wallets[user], user, kind, amount, context);
    forall u: nat
      ensures Balance(next.entries, Credit(u)) == Balance(b.entries, Credit(u)) + Contribution(e, Credit(u))
      ensures Balance(next.entries, Payable(u)) == Balance(b.entries, Payable(u)) + Contribution(e, Payable(u))
    {
      BalanceAppend(b.entries, e, Credit(u));
      BalanceAppend(b.entries, e, Payable(u));
    }
  }

  /** Any movement that leaves the touched wallet non-negative keeps the books. */
  lemma PostKeepsBooks(b: Books, user: nat, kind: EntryKind, amount: int, context: Context)
    requires Kept(b) && user < |b.wallets|
    requires var w := Moved(b.wallets[user], kind, amount); w.credit >= 0 && w.payable >= 0
    ensures Kept(Post(b, user, kind, amount, context))
  {
    var e := EntryFor(b.wallets[user], user, kind, amount, context);
    BalancedAppend(b, user, kind, amount, context);
    StampedAppend(b.entries, e);
    BalanceAppend(b.entries, e, Everything);
    TotalAfterUpdate(b.wallets, user, Moved(b.wallets[user], kind, amount));
  }

  /** A wallet opened at zero joins the books. */
  lemma OpenWalletKeepsBooks(b: Books)
    requires Kept(b)
    ensures Kept(b.(wallets := b.wallets + [Wallet(0, 0)]))
  {
    assert (b.wallets + [Wallet(0, 0)])[..|b.wallets|] == b.wallets;
  }
}
