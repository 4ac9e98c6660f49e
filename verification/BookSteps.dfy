/** What each wallet operation does to the books, and which entries leave a raffle's accounts alone. */
module BookSteps {
  import opened Journal
  import opened Ledger
  import opened MarketInvariant
  import opened Raffles

  /** After a successful operation the books hold, the wallets are the same ones, and one entry was added. */
  ghost predicate Posted(before: Books, after: Books, e: Entry) {
    && Kept(after)
    && |after.wallets| == |before.wallets|
    && after.entries == before.entries + [e]
  }

  ghost predicate EntryIs(e: Entry, user: nat, kind: EntryKind, amount: int, context: Context) {
    e.user == user && e.kind == kind && e.amount == amount && e.context == context
  }

  lemma NeverNegative(b: Books, user: nat)
    requires Kept(b) && user < |b.wallets|
    ensures b.wallets[user].credit >= 0 && b.wallets[user].payable >= 0
  {
  }

  lemma MovementPosts(b: Books, user: nat, kind: EntryKind, amount: int, context: Context) returns (e: Entry)
    requires Kept(b) && user < |b.wallets|
    requires var w := Moved(b.wallets[user], kind, amount); w.credit >= 0 && w.payable >= 0
    ensures Posted(b, Post(b, user, kind, amount, context), e) && EntryIs(e, user, kind, amount, context)
  {
    e := EntryFor(b.wallets[user], user, kind, amount, context);
    PostKeepsBooks(b, user, kind, amount, context);
  }

  lemma CreditUserPosts(b: Books, user: nat, amount: int, kind: EntryKind, context: Context) returns (e: Entry)
    requires Kept(b) && OnCredit(kind) && CreditUser(b, user, amount, kind, context).Success?
    ensures Posted(b, CreditUser(b, user, amount, kind, context).value, e)
    ensures EntryIs(e, user, kind, amount, context) && amount > 0
  {
    NeverNegative(b, user);
    e := MovementPosts(b, user, kind, amount, context);
  }

  lemma DebitUserPosts(b: Books, user: nat, amount: int, kind: EntryKind, context: Context) returns (e: Entry)
    requires Kept(b) && OnCredit(kind) && DebitUser(b, user, amount, kind, context).Success?
    ensures Posted(b, DebitUser(b, user, amount, kind, context).value, e)
    ensures EntryIs(e, user, kind, -amount, context) && amount > 0
  {
    NeverNegative(b, user);
    e := MovementPosts(b, user, kind, -amount, context);
  }

  lemma CreditSellerPosts(b: Books, seller: nat, amount: int, context: Context) returns (e: Entry)
    requires Kept(b) && CreditSeller(b, seller, amount, context).Success?
    ensures Posted(b, CreditSeller(b, seller, amount, context).value, e)
    ensures EntryIs(e, seller, SellerPayableCredit, amount, context) && amount > 0
  {
    NeverNegative(b, seller);
    e := MovementPosts(b, seller, SellerPayableCredit, amount, context);
  }

  lemma DebitSellerPosts(b: Books, seller: nat, amount: int, context: Context) returns (e: Entry)
    requires Kept(b) && DebitSeller(b, seller, amount, context).Success?
    ensures Posted(b, DebitSeller(b, seller, amount, context).value, e)
    ensures EntryIs(e, seller, SellerPayableDebit, -amount, context) && amount > 0
  {
    NeverNegative(b, seller);
    e := MovementPosts(b, seller, SellerPayableDebit, -amount, context);
  }

  lemma OthersKeptTwice(a: seq<Entry>, b: seq<Entry>, c: seq<Entry>, i: nat)
    requires OthersKept(a, b, i) && OthersKept(b, c, i)
    ensures OthersKept(a, c, i)
  {
  }

  /** An entry that is neither a ticket refund nor part of a payout leaves a raffle's accounts alone. */
  lemma NeutralEntry(entries: seq<Entry>, txs: seq<Tx>, i: nat, r: Raffle, e: Entry)
    requires RowBooks(entries, txs, i, r)
    requires e.context.payout.None? && e.kind != TicketPurchaseRefund
    ensures RowBooks(entries + [e], txs, i, r)
  {
    BalanceAppend(entries, e, PayoutNet(i));
    BalanceAppend(entries, e, PayoutDebits(i));
    BalanceAppend(entries, e, DisputeRefunds(i));
    forall b: nat ensures Balance(entries + [e], RefundTo(i, b)) == Balance(entries, RefundTo(i, b)) {
      BalanceAppend(entries, e, RefundTo(i, b));
    }
  }

  lemma NeutralTx(entries: seq<Entry>, txs: seq<Tx>, i: nat, r: Raffle, t: Tx)
    requires RowBooks(entries, txs, i, r) && t.kind != SellerPayment
    ensures RowBooks(entries, txs + [t], i, r)
  {
    SumAppend(txs, t, SellerPayments(i));
    SumAppend(txs, t, SellerPaid(i));
  }

  lemma EverythingAppend(entries: seq<Entry>, e: Entry)
    ensures Balance(entries + [e], Everything) == Balance(entries, Everything) + e.amount
  {
    BalanceAppend(entries, e, Everything);
  }
}
