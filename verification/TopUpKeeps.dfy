/** Credit top-ups keep the market invariant under any order and repetition of notices. */
module TopUpKeeps {
  import opened BookSteps
  import opened Journal
  import opened Ledger
  import opened Market
  import opened MarketInvariant
  import opened TopUps
  import opened Wrappers

  lemma SessionOf(d: Db, k: nat)
    requires Inv(d) && k < |d.sessions|
    ensures SessionFacts(d.sessions[k]) && d.sessions[k].user < |d.books.wallets|
    ensures SessionBooks(d.books.entries, d.txs, k, d.sessions[k])
  {
  }

  /** A session row changes status only: no money moves. */
  lemma RelabelKeeps(d: Db, k: nat, s: Session)
    requires Inv(d) && k < |d.sessions|
    requires s.user == d.sessions[k].user && s.credited == d.sessions[k].credited && s.refunded == d.sessions[k].refunded
    requires SessionFacts(s)
    ensures Inv(SetSession(d, k, s))
  {
    SessionOf(d, k);
    NothingElse(d, k);
    MoneySession(d, k, s, d.books, d.txs);
    assert SetSession(d, k, s).(books := d.books, txs := d.txs) == SetSession(d, k, s);
  }

  lemma NothingElse(d: Db, k: nat)
    ensures OtherSessionsKept(d.books.entries, d.books.entries, k)
    ensures OtherSessionsRecorded(d.txs, d.txs, k)
  {
  }

  lemma CreditBooked(entries: seq<Entry>, txs: seq<Tx>, k: nat, s: Session, next: Session, e: Entry, t: Tx)
    requires SessionBooks(entries, txs, k, s) && s.credited == 0 && s.refunded == 0
    requires e.kind == CreditTopUp && e.context == OnSession(k) && e.amount == next.credited > 0
    requires t.kind == CreditLoad && t.topUp == Some(k) && t.amount == next.credited
    requires next.refunded == 0
    ensures SessionBooks(entries + [e], txs + [t], k, next)
  {
    BalanceAppend(entries, e, TopUpCredit(k));
    BalanceAppend(entries, e, TopUpCredits(k));
    BalanceAppend(entries, e, TopUpRefund(k));
    BalanceAppend(entries, e, TopUpRefunds(k));
    SumAppend(txs, t, Loads(k));
    SumAppend(txs, t, Loaded(k));
  }

  lemma ApproveResult(d: Db, k: nat, n: Notice, now: Time)
    requires k < |d.sessions|
    ensures var s := d.sessions[k];
            var credit := CreditUser(d.books, s.user, n.amount, CreditTopUp, OnSession(k));
            if s.processedAt.None? && credit.Success?
            then && ApproveSession(d, k, n, now).error.None?
                 && ApproveSession(d, k, n, now).db == SetSession(d, k, Credited(s, n, now)).(
                      books := credit.value,
                      txs := d.txs + [Tx(CreditLoad, s.user, n.amount, n.amount, None, Some(k))])
            else ApproveSession(d, k, n, now).db == d
  {
  }

  /** What crediting a session does to the books, before the session row is touched. */
  lemma ApprovePosts(d: Db, k: nat, n: Notice, next: Session, t: Tx)
    requires Inv(d) && k < |d.sessions| && d.sessions[k].processedAt.None?
    requires CreditUser(d.books, d.sessions[k].user, n.amount, CreditTopUp, OnSession(k)).Success?
    requires next.credited == n.amount && next.refunded == 0
    requires t.kind == CreditLoad && t.topUp == Some(k) && t.amount == n.amount
    ensures var books := CreditUser(d.books, d.sessions[k].user, n.amount, CreditTopUp, OnSession(k)).value;
            && Kept(books) && |books.wallets| == |d.books.wallets|
            && OtherSessionsKept(d.books.entries, books.entries, k)
            && SessionBooks(books.entries, d.txs + [t], k, next)
            && Balance(books.entries, Everything) == Balance(d.books.entries, Everything) + n.amount
  {
    SessionOf(d, k);
    var e := CreditUserPosts(d.books, d.sessions[k].user, n.amount, CreditTopUp, OnSession(k));
    CreditBooked(d.books.entries, d.txs, k, d.sessions[k], next, e, t);
    SessionEntry(d.books.entries, e, k);
    EverythingAppend(d.books.entries, e);
  }

  lemma ApproveMoney(d: Db, k: nat, n: Notice, now: Time)
    requires Inv(d) && k < |d.sessions| && d.sessions[k].processedAt.None?
    requires CreditUser(d.books, d.sessions[k].user, n.amount, CreditTopUp, OnSession(k)).Success?
    ensures var s := d.sessions[k];
            Inv(SetSession(d, k, Credited(s, n, now)).(
                books := CreditUser(d.books, s.user, n.amount, CreditTopUp, OnSession(k)).value,
                txs := d.txs + [Tx(CreditLoad, s.user, n.amount, n.amount, None, Some(k))]))
  {
    SessionOf(d, k);
    var s := d.sessions[k];
    var t := Tx(CreditLoad, s.user, n.amount, n.amount, None, Some(k));
    var books := CreditUser(d.books, s.user, n.amount, CreditTopUp, OnSession(k)).value;
    ApprovePosts(d, k, n, Credited(s, n, now), t);
    SessionTx(d.txs, t, k);
    MoneySession(d, k, Credited(s, n, now), books, d.txs + [t]);
  }

  lemma ApproveKeeps(d: Db, k: nat, n: Notice, now: Time)
    requires Inv(d) && k < |d.sessions|
    ensures Inv(ApproveSession(d, k, n, now).db)
  {
    var s := d.sessions[k];
    ApproveResult(d, k, n, now);
    if s.processedAt.None? && CreditUser(d.books, s.user, n.amount, CreditTopUp, OnSession(k)).Success? {
      ApproveMoney(d, k, n, now);
    }
  }

  lemma RefundBooked(entries: seq<Entry>, txs: seq<Tx>, k: nat, s: Session, cents: int, e: Entry)
    requires SessionBooks(entries, txs, k, s) && s.refunded == 0 && cents > 0
    requires e.kind == CreditTopUpRefund && e.context == OnSession(k) && e.amount == -cents
    ensures SessionBooks(entries + [e], txs, k, AfterRefund(s, cents))
  {
    BalanceAppend(entries, e, TopUpCredit(k));
    BalanceAppend(entries, e, TopUpCredits(k));
    BalanceAppend(entries, e, TopUpRefund(k));
    BalanceAppend(entries, e, TopUpRefunds(k));
  }

  lemma RefundMoney(d: Db, k: nat, cents: int)
    requires Inv(d) && k < |d.sessions| && d.sessions[k].status == Approved
    requires 0 < cents <= d.sessions[k].credited
    requires DebitUser(d.books, d.sessions[k].user, cents, CreditTopUpRefund, OnSession(k)).Success?
    ensures Inv(SetSession(d, k, AfterRefund(d.sessions[k], cents)).(
                books := DebitUser(d.books, d.sessions[k].user, cents, CreditTopUpRefund, OnSession(k)).value, txs := d.txs))
  {
    SessionOf(d, k);
    var s := d.sessions[k];
    var books := DebitUser(d.books, s.user, cents, CreditTopUpRefund, OnSession(k)).value;
    var e := DebitUserPosts(d.books, s.user, cents, CreditTopUpRefund, OnSession(k));
    RefundBooked(d.books.entries, d.txs, k, s, cents, e);
    SessionEntry(d.books.entries, e, k);
    NothingElse(d, k);
    EverythingAppend(d.books.entries, e);
    MoneySession(d, k, AfterRefund(s, cents), books, d.txs);
  }

  lemma RefundTopUpResult(d: Db, k: nat, amount: Option<real>, providerOk: bool)
    requires RefundTopUp(d, k, amount, providerOk).error.None?
    ensures && k < |d.sessions| && d.sessions[k].status == Approved
            && var s := d.sessions[k];
            && var cents := RefundCents(s, amount);
            && 0 < cents <= s.credited - s.refunded
            && DebitUser(d.books, s.user, cents, CreditTopUpRefund, OnSession(k)).Success?
            && RefundTopUp(d, k, amount, providerOk).db == SetSession(d, k, AfterRefund(s, cents)).(
                 books := DebitUser(d.books, s.user, cents, CreditTopUpRefund, OnSession(k)).value, txs := d.txs)
  {
  }

  lemma RefundTopUpKeeps(d: Db, k: nat, amount: Option<real>, providerOk: bool)
    requires Inv(d)
    ensures Inv(RefundTopUp(d, k, amount, providerOk).db)
  {
    if RefundTopUp(d, k, amount, providerOk).error.None? {
      RefundTopUpResult(d, k, amount, providerOk);
      SessionOf(d, k);
      RefundMoney(d, k, RefundCents(d.sessions[k], amount));
    }
  }

  lemma SyncTopUpKeeps(d: Db, n: Notice, found: Option<nat>, now: Time)
    requires Inv(d)
    ensures Inv(SyncTopUp(d, n, found, now).db)
  {
    if Finds(d, n, found) {
      var k := found.value;
      if n.status == NoticeApproved {
        ApproveKeeps(d, k, n, now);
        EventsIrrelevant(ApproveSession(d, k, n, now).db,
                         ApproveSession(d, k, n, now).db.providerEvents + {PaymentEvent(n.paymentId)});
      } else {
        SessionOf(d, k);
        RelabelKeeps(d, k, Updated(d.sessions[k], n, now));
        EventsIrrelevant(SetSession(d, k, Updated(d.sessions[k], n, now)), d.providerEvents + {PaymentEvent(n.paymentId)});
      }
    } else {
      EventsIrrelevant(d, d.providerEvents + {PaymentEvent(n.paymentId)});
    }
  }

  lemma WebhookKeeps(d: Db, kind: nat, n: Notice, found: Option<nat>, now: Time)
    requires Inv(d)
    ensures Inv(Webhook(d, kind, n, found, now).db)
  {
    SyncTopUpKeeps(d, n, found, now);
    var synced := SyncTopUp(d, n, found, now).db;
    EventsIrrelevant(synced, synced.providerEvents + {WebhookEvent(kind, n.paymentId)});
  }

  lemma MockStepKeeps(d: Db, k: nat, action: MockAction, now: Time)
    requires Inv(d)
    ensures Inv(MockStep(d, k, action, now).db)
  {
    if k < |d.sessions| && d.sessions[k].provider == Mock {
      SessionOf(d, k);
      var s := d.sessions[k];
      match action
      case MockPend => RelabelKeeps(d, k, s.(status := AwaitingPayment));
      case MockReject => RelabelKeeps(d, k, Closed(s, Declined, now));
      case MockExpire => RelabelKeeps(d, k, Closed(s, Expired, now));
      case MockApprove => ApproveKeeps(d, k, Notice(k, NoticeApproved, s.amount, Some(s.reference), s.orderId), now);
    }
  }
}
