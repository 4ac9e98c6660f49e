/**
 The invariant of the market: every raffle row and top-up session is consistent in itself, and the
 ledger, the transaction history and the rows agree about money.
 */
module MarketInvariant {
  import opened Journal
  import opened Ledger
  import opened Market
  import opened RaffleInvariant
  import opened Raffles
  import opened Tickets
  import opened TopUps
  import opened Wrappers

  // ----- One raffle against the books -----

  /** Money a payout holds out of its seller's payable balance. */
  function Held(r: Raffle): int {
    if PayoutCommitted(r) then r.payout.value.net else 0
  }

  /** What a buyer must have been given back for a raffle. */
  function RefundDue(r: Raffle, b: nat): int {
    if DisputeRefunded(r) then (if r.dispute.value.reporter == b then r.dispute.value.refund else 0)
    else RefundedBy(r.tickets, b)
  }

  function Flag(condition: bool): int {
    if condition then 1 else 0
  }

  ghost predicate RowBooks(entries: seq<Entry>, txs: seq<Tx>, i: nat, r: Raffle) {
    && Balance(entries, PayoutNet(i)) == -Held(r)
    && (!PayoutStarted(r) ==> Balance(entries, PayoutDebits(i)) == 0)
    && (PayoutCommitted(r) ==> Balance(entries, PayoutDebits(i)) == 1)
    && Balance(entries, PayoutDebits(i)) <= 1
    && Balance(entries, DisputeRefunds(i)) == Flag(DisputeRefunded(r))
    && (forall b: nat :: Balance(entries, RefundTo(i, b)) == RefundDue(r, b))
    && Sum(txs, SellerPayments(i)) == Flag(r.releasedAt.Some?)
    && Sum(txs, SellerPaid(i)) == (if r.releasedAt.Some? then Held(r) else 0)
  }

  ghost predicate RowUnused(entries: seq<Entry>, txs: seq<Tx>, i: nat) {
    && Balance(entries, PayoutNet(i)) == 0
    && Balance(entries, PayoutDebits(i)) == 0
    && Balance(entries, DisputeRefunds(i)) == 0
    && (forall b: nat :: Balance(entries, RefundTo(i, b)) == 0)
    && Sum(txs, SellerPayments(i)) == 0
    && Sum(txs, SellerPaid(i)) == 0
  }

  // ----- One top-up session against the books -----

  ghost predicate SessionBooks(entries: seq<Entry>, txs: seq<Tx>, k: nat, s: Session) {
    && Balance(entries, TopUpCredit(k)) == s.credited
    && Balance(entries, TopUpCredits(k)) == Flag(s.credited > 0)
    && Balance(entries, TopUpRefund(k)) == -s.refunded
    && Balance(entries, TopUpRefunds(k)) == Flag(s.refunded > 0)
    && Sum(txs, Loads(k)) == Flag(s.credited > 0)
    && Sum(txs, Loaded(k)) == s.credited
  }

  ghost predicate SessionUnused(entries: seq<Entry>, txs: seq<Tx>, k: nat) {
    && Balance(entries, TopUpCredit(k)) == 0
    && Balance(entries, TopUpCredits(k)) == 0
    && Balance(entries, TopUpRefund(k)) == 0
    && Balance(entries, TopUpRefunds(k)) == 0
    && Sum(txs, Loads(k)) == 0
    && Sum(txs, Loaded(k)) == 0
  }

  // ----- Everything together -----

  function TotalHeld(raffles: seq<Raffle>): int {
    if |raffles| == 0 then 0
    else TotalHeld(raffles[..|raffles| - 1]) + Held(raffles[|raffles| - 1])
  }

  lemma {:induction false} TotalHeldUpdate(raffles: seq<Raffle>, i: nat, r: Raffle)
    requires i < |raffles|
    ensures TotalHeld(raffles[i := r]) == TotalHeld(raffles) - Held(raffles[i]) + Held(r)
  {
    var last := |raffles| - 1;
    if i == last {
      assert raffles[i := r][..last] == raffles[..last];
    } else {
      assert raffles[i := r][..last] == raffles[..last][i := r];
      TotalHeldUpdate(raffles[..last], i, r);
    }
  }

  /** The money in all wallets: top-ups less their refunds, the platform's share, and payouts on their way or done. */
  ghost predicate Conserved(d: Db) {
    Balance(d.books.entries, Everything) == TotalLoaded(d.sessions) - Sum(d.txs, PlatformKept) - TotalHeld(d.raffles)
  }

  ghost predicate RowKnown(r: Raffle, users: nat) {
    && r.seller < users
    && (forall k :: 0 <= k < |r.tickets| ==> r.tickets[k].buyer < users)
    && (r.dispute.Some? ==> r.dispute.value.reporter < users)
    && (r.winner.Some? ==> r.winner.value < users)
  }

  ghost predicate RowsHold(d: Db) {
    forall i :: 0 <= i < |d.raffles| ==>
      && RowFacts(d.config.feeRate, d.raffles[i])
      && RowKnown(d.raffles[i], |d.books.wallets|)
  }

  ghost predicate RowsBooked(d: Db) {
    && (forall i: nat :: i < |d.raffles| ==> RowBooks(d.books.entries, d.txs, i, d.raffles[i]))
    && (forall i: nat :: i >= |d.raffles| ==> RowUnused(d.books.entries, d.txs, i))
  }

  ghost predicate SessionsHold(d: Db) {
    && (forall k: nat :: k < |d.sessions| ==>
          && SessionFacts(d.sessions[k])
          && d.sessions[k].user < |d.books.wallets|
          && SessionBooks(d.books.entries, d.txs, k, d.sessions[k]))
    && (forall k: nat :: k >= |d.sessions| ==> SessionUnused(d.books.entries, d.txs, k))
  }

  ghost predicate Inv(d: Db) {
    && Kept(d.books)
    && RowsHold(d)
    && RowsBooked(d)
    && SessionsHold(d)
    && Conserved(d)
  }

  lemma InitialInv(config: Config)
    ensures Inv(Initial(config))
  {
  }

  // ----- Steps that replace one row and move no money -----

  /** Nothing the books look at changes. */
  ghost predicate SameMoney(a: Raffle, b: Raffle) {
    && Held(a) == Held(b)
    && PayoutStarted(a) == PayoutStarted(b)
    && PayoutCommitted(a) == PayoutCommitted(b)
    && a.releasedAt.Some? == b.releasedAt.Some?
    && DisputeRefunded(a) == DisputeRefunded(b)
    && forall u: nat :: RefundDue(a, u) == RefundDue(b, u)
  }

  lemma ReplaceRowBooked(d: Db, i: nat, r: Raffle)
    requires Inv(d) && i < |d.raffles|
    requires RowFacts(d.config.feeRate, r) && RowKnown(r, |d.books.wallets|)
    requires RowBooks(d.books.entries, d.txs, i, r) && Held(d.raffles[i]) == Held(r)
    ensures Inv(SetRaffle(d, i, r))
  {
    TotalHeldUpdate(d.raffles, i, r);
    var next := SetRaffle(d, i, r);
    forall j: nat | j < |next.raffles| && j != i ensures RowBooks(next.books.entries, next.txs, j, next.raffles[j]) {
      assert RowBooks(d.books.entries, d.txs, j, d.raffles[j]);
    }
  }

  lemma ReplaceRow(d: Db, i: nat, r: Raffle)
    requires Inv(d) && i < |d.raffles|
    requires RowFacts(d.config.feeRate, r) && RowKnown(r, |d.books.wallets|)
    requires SameMoney(d.raffles[i], r)
    ensures Inv(SetRaffle(d, i, r))
  {
    assert RowBooks(d.books.entries, d.txs, i, d.raffles[i]);
    ReplaceRowBooked(d, i, r);
  }

  /** A new row starts with nothing booked. */
  lemma AppendRow(d: Db, r: Raffle)
    requires Inv(d)
    requires RowFacts(d.config.feeRate, r) && RowKnown(r, |d.books.wallets|)
    requires r.tickets == [] && r.payout.None? && r.dispute.None? && r.releasedAt.None?
    ensures Inv(d.(raffles := d.raffles + [r]))
  {
    var next := d.(raffles := d.raffles + [r]);
    assert next.raffles[..|d.raffles|] == d.raffles;
    assert RowUnused(d.books.entries, d.txs, |d.raffles|);
    forall j: nat | j < |next.raffles| ensures RowBooks(next.books.entries, next.txs, j, next.raffles[j]) {
      if j < |d.raffles| {
        assert RowBooks(d.books.entries, d.txs, j, d.raffles[j]);
      }
    }
  }

  lemma AppendSession(d: Db, s: Session)
    requires Inv(d) && s.user < |d.books.wallets| && SessionFacts(s)
    requires s.credited == 0
    ensures Inv(d.(sessions := d.sessions + [s]))
  {
    var next := d.(sessions := d.sessions + [s]);
    assert next.sessions[..|d.sessions|] == d.sessions;
    assert SessionUnused(d.books.entries, d.txs, |d.sessions|);
  }

  lemma AppendWallet(d: Db)
    requires Inv(d)
    ensures Inv(OpenWallet(d).db)
  {
    OpenWalletKeepsBooks(d.books);
    var next := OpenWallet(d).db;
    forall i | 0 <= i < |next.raffles| ensures RowKnown(next.raffles[i], |next.books.wallets|) {
      assert RowKnown(d.raffles[i], |d.books.wallets|);
    }
  }

  lemma EventsIrrelevant(d: Db, events: set<EventKey>)
    requires Inv(d)
    ensures Inv(d.(providerEvents := events))
  {
  }

  // ----- Steps that move money for one raffle -----

  /** The account belongs to another raffle, or to a top-up session. */
  predicate Foreign(a: Account, i: nat) {
    match a
    case PayoutNet(j) => j != i
    case PayoutDebits(j) => j != i
    case RefundTo(j, _) => j != i
    case DisputeRefunds(j) => j != i
    case TopUpCredit(_) => true
    case TopUpCredits(_) => true
    case TopUpRefund(_) => true
    case TopUpRefunds(_) => true
    case _ => false
  }

  ghost predicate OthersKept(before: seq<Entry>, after: seq<Entry>, i: nat) {
    forall a: Account :: Foreign(a, i) ==> Balance(after, a) == Balance(before, a)
  }

  predicate ColumnForeign(c: Column, i: nat) {
    match c
    case SellerPayments(j) => j != i
    case SellerPaid(j) => j != i
    case Loads(_) => true
    case Loaded(_) => true
    case PlatformKept => false
  }

  ghost predicate OthersRecorded(before: seq<Tx>, after: seq<Tx>, i: nat) {
    forall c: Column :: ColumnForeign(c, i) ==> Sum(after, c) == Sum(before, c)
  }

  predicate LocalTo(c: Context, i: nat) {
    c.raffle == Some(i) && c.topUp.None? && (c.payout.None? || c.payout == Some(i))
  }

  lemma LocalEntry(entries: seq<Entry>, e: Entry, i: nat)
    requires LocalTo(e.context, i)
    ensures OthersKept(entries, entries + [e], i)
  {
    forall a: Account | Foreign(a, i) ensures Balance(entries + [e], a) == Balance(entries, a) {
      BalanceAppend(entries, e, a);
    }
  }

  lemma LocalTx(txs: seq<Tx>, t: Tx, i: nat)
    requires t.kind != CreditLoad && (t.kind == SellerPayment ==> t.raffle == Some(i))
    ensures OthersRecorded(txs, txs + [t], i)
  {
    forall c: Column | ColumnForeign(c, i) ensures Sum(txs + [t], c) == Sum(txs, c) {
      SumAppend(txs, t, c);
    }
  }

  /** One raffle row, its own accounts and the totals change; everything else stays. */
  lemma MoneyRow(d: Db, i: nat, r: Raffle, books: Books, txs: seq<Tx>)
    requires Inv(d) && i < |d.raffles| && |books.wallets| == |d.books.wallets|
    requires RowFacts(d.config.feeRate, r) && RowKnown(r, |books.wallets|)
    requires Kept(books)
    requires OthersKept(d.books.entries, books.entries, i) && OthersRecorded(d.txs, txs, i)
    requires RowBooks(books.entries, txs, i, r)
    requires Balance(books.entries, Everything) - Balance(d.books.entries, Everything)
          == Sum(d.txs, PlatformKept) - Sum(txs, PlatformKept) - Held(r) + Held(d.raffles[i])
    ensures Inv(SetRaffle(d, i, r).(books := books, txs := txs))
  {
    TotalHeldUpdate(d.raffles, i, r);
    OtherRows(d, i, r, books, txs);
    SessionsUntouched(d, i, books, txs);
    RowsHoldStill(d, i, r, books, txs);
  }

  lemma RowsHoldStill(d: Db, i: nat, r: Raffle, books: Books, txs: seq<Tx>)
    requires RowsHold(d) && i < |d.raffles| && |books.wallets| == |d.books.wallets|
    requires RowFacts(d.config.feeRate, r) && RowKnown(r, |books.wallets|)
    ensures RowsHold(SetRaffle(d, i, r).(books := books, txs := txs))
  {
  }

  lemma OtherRows(d: Db, i: nat, r: Raffle, books: Books, txs: seq<Tx>)
    requires RowsBooked(d) && i < |d.raffles|
    requires OthersKept(d.books.entries, books.entries, i) && OthersRecorded(d.txs, txs, i)
    requires RowBooks(books.entries, txs, i, r)
    ensures RowsBooked(SetRaffle(d, i, r).(books := books, txs := txs))
  {
    forall j: nat | j < |d.raffles| && j != i ensures RowBooks(books.entries, txs, j, d.raffles[j]) {
      assert RowBooks(d.books.entries, d.txs, j, d.raffles[j]);
      RowAccountsForeign(j, i);
    }
    forall j: nat | j >= |d.raffles| ensures RowUnused(books.entries, txs, j) {
      assert RowUnused(d.books.entries, d.txs, j);
      RowAccountsForeign(j, i);
    }
  }

  lemma RowAccountsForeign(j: nat, i: nat)
    requires j != i
    ensures Foreign(PayoutNet(j), i) && Foreign(PayoutDebits(j), i) && Foreign(DisputeRefunds(j), i)
    ensures forall b: nat :: Foreign(RefundTo(j, b), i)
    ensures ColumnForeign(SellerPayments(j), i) && ColumnForeign(SellerPaid(j), i)
  {
  }

  lemma SessionsUntouched(d: Db, i: nat, books: Books, txs: seq<Tx>)
    requires SessionsHold(d) && |books.wallets| == |d.books.wallets|
    requires OthersKept(d.books.entries, books.entries, i) && OthersRecorded(d.txs, txs, i)
    ensures SessionsHold(d.(books := books, txs := txs))
  {
    forall k: nat
      ensures k < |d.sessions| ==> SessionBooks(books.entries, txs, k, d.sessions[k])
      ensures k >= |d.sessions| ==> SessionUnused(books.entries, txs, k)
    {
      SessionAccountsForeign(k, i);
      if k < |d.sessions| {
        assert SessionBooks(d.books.entries, d.txs, k, d.sessions[k]);
      } else {
        assert SessionUnused(d.books.entries, d.txs, k);
      }
    }
  }

  lemma SessionAccountsForeign(k: nat, i: nat)
    ensures Foreign(TopUpCredit(k), i) && Foreign(TopUpCredits(k), i)
    ensures Foreign(TopUpRefund(k), i) && Foreign(TopUpRefunds(k), i)
    ensures ColumnForeign(Loads(k), i) && ColumnForeign(Loaded(k), i)
  {
  }

  // ----- Steps that move money for one top-up session -----

  predicate SessionForeign(a: Account, k: nat) {
    match a
    case PayoutNet(_) => true
    case PayoutDebits(_) => true
    case RefundTo(_, _) => true
    case DisputeRefunds(_) => true
    case TopUpCredit(j) => j != k
    case TopUpCredits(j) => j != k
    case TopUpRefund(j) => j != k
    case TopUpRefunds(j) => j != k
    case _ => false
  }

  predicate SessionColumnForeign(c: Column, k: nat) {
    match c
    case SellerPayments(_) => true
    case SellerPaid(_) => true
    case Loads(j) => j != k
    case Loaded(j) => j != k
    case PlatformKept => true
  }

  ghost predicate OtherSessionsKept(before: seq<Entry>, after: seq<Entry>, k: nat) {
    forall a: Account :: SessionForeign(a, k) ==> Balance(after, a) == Balance(before, a)
  }

  ghost predicate OtherSessionsRecorded(before: seq<Tx>, after: seq<Tx>, k: nat) {
    forall c: Column :: SessionColumnForeign(c, k) ==> Sum(after, c) == Sum(before, c)
  }

  lemma SessionEntry(entries: seq<Entry>, e: Entry, k: nat)
    requires e.context == OnSession(k) && e.kind != TicketPurchaseRefund
    ensures OtherSessionsKept(entries, entries + [e], k)
  {
    forall a: Account | SessionForeign(a, k) ensures Balance(entries + [e], a) == Balance(entries, a) {
      BalanceAppend(entries, e, a);
    }
  }

  lemma SessionTx(txs: seq<Tx>, t: Tx, k: nat)
    requires t.kind == CreditLoad && t.topUp == Some(k)
    ensures OtherSessionsRecorded(txs, txs + [t], k)
  {
    forall c: Column | SessionColumnForeign(c, k) ensures Sum(txs + [t], c) == Sum(txs, c) {
      SumAppend(txs, t, c);
    }
  }

  lemma MoneySession(d: Db, k: nat, s: Session, books: Books, txs: seq<Tx>)
    requires Inv(d) && k < |d.sessions| && |books.wallets| == |d.books.wallets|
    requires SessionFacts(s) && s.user == d.sessions[k].user
    requires Kept(books)
    requires OtherSessionsKept(d.books.entries, books.entries, k) && OtherSessionsRecorded(d.txs, txs, k)
    requires SessionBooks(books.entries, txs, k, s)
    requires Balance(books.entries, Everything) - Balance(d.books.entries, Everything)
          == s.credited - s.refunded - d.sessions[k].credited + d.sessions[k].refunded
    ensures Inv(SetSession(d, k, s).(books := books, txs := txs))
  {
    TotalLoadedUpdate(d.sessions, k, s);
    RowsUntouched(d, k, books, txs);
    OtherSessions(d, k, s, books, txs);
    var next := SetSession(d, k, s).(books := books, txs := txs);
    assert RowsBooked(next);
  }

  lemma RowsUntouched(d: Db, k: nat, books: Books, txs: seq<Tx>)
    requires RowsBooked(d)
    requires OtherSessionsKept(d.books.entries, books.entries, k) && OtherSessionsRecorded(d.txs, txs, k)
    ensures RowsBooked(d.(books := books, txs := txs))
  {
    forall j: nat
      ensures j < |d.raffles| ==> RowBooks(books.entries, txs, j, d.raffles[j])
      ensures j >= |d.raffles| ==> RowUnused(books.entries, txs, j)
    {
      RowAccountsSessionForeign(j, k);
      if j < |d.raffles| {
        assert RowBooks(d.books.entries, d.txs, j, d.raffles[j]);
      } else {
        assert RowUnused(d.books.entries, d.txs, j);
      }
    }
  }

  lemma RowAccountsSessionForeign(j: nat, k: nat)
    ensures SessionForeign(PayoutNet(j), k) && SessionForeign(PayoutDebits(j), k) && SessionForeign(DisputeRefunds(j), k)
    ensures forall b: nat :: SessionForeign(RefundTo(j, b), k)
    ensures SessionColumnForeign(SellerPayments(j), k) && SessionColumnForeign(SellerPaid(j), k)
  {
  }

  lemma OtherSessions(d: Db, k: nat, s: Session, books: Books, txs: seq<Tx>)
    requires SessionsHold(d) && k < |d.sessions| && |books.wallets| == |d.books.wallets|
    requires SessionFacts(s) && s.user == d.sessions[k].user
    requires OtherSessionsKept(d.books.entries, books.entries, k) && OtherSessionsRecorded(d.txs, txs, k)
    requires SessionBooks(books.entries, txs, k, s)
    ensures SessionsHold(SetSession(d, k, s).(books := books, txs := txs))
  {
    forall j: nat | j != k
      ensures j < |d.sessions| ==> SessionBooks(books.entries, txs, j, d.sessions[j])
      ensures j >= |d.sessions| ==> SessionUnused(books.entries, txs, j)
    {
      assert SessionForeign(TopUpCredit(j), k) && SessionForeign(TopUpCredits(j), k);
      assert SessionForeign(TopUpRefund(j), k) && SessionForeign(TopUpRefunds(j), k);
      assert SessionColumnForeign(Loads(j), k) && SessionColumnForeign(Loaded(j), k);
      if j < |d.sessions| {
        assert SessionBooks(d.books.entries, d.txs, j, d.sessions[j]);
      } else {
        assert SessionUnused(d.books.entries, d.txs, j);
      }
    }
  }
}
