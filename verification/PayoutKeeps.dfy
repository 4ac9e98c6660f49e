/**
 Paying sellers keeps the market invariant. While a provider call is under way the row and the books
 disagree, so each outcome is proved from the state before the call to the state after it.
 */
module PayoutKeeps {
  import opened BookSteps
  import opened Journal
  import opened Ledger
  import opened LifecycleKeeps
  import opened Market
  import opened MarketInvariant
  import opened RaffleInvariant
  import opened Raffles
  import opened Wrappers

  /** A payout under way started after its protection week: what a later asynchronous completion relies on. */
  ghost predicate PayoutsRipe(d: Db, clock: Time) {
    forall i :: 0 <= i < |d.raffles| ==> Ripe(d.raffles[i], clock)
  }

  ghost predicate Ripe(r: Raffle, clock: Time) {
    r.payout.Some? && r.payout.value.status == Processing ==>
      r.confirmedAt.Some? && r.confirmedAt.value + PROTECTION_DAYS * DAY <= clock
  }

  /** A payout about to be attempted: pending, with nothing holding it back. */
  ghost predicate Attemptable(r: Raffle, now: Time) {
    r.payout.Some? && r.payout.value.status == Pending && ReleaseHold(r, now).None?
  }

  // ----- The rows an attempt can leave behind -----

  lemma FailedRowFacts(rate: real, r: Raffle)
    requires RowFacts(rate, r) && r.payout.Some? && r.payout.value.status != Completed
    requires r.confirmedAt.Some?
    ensures RowFacts(rate, PayoutSet(r, Failed))
    ensures RowFacts(rate, PayoutSet(PayoutAccepted(r), Failed))
  {
  }

  lemma AcceptedRowFacts(rate: real, r: Raffle)
    requires RowFacts(rate, r) && r.payout.Some? && r.payout.value.status != Completed
    requires r.confirmedAt.Some? && r.payout.value.net > 0
    ensures RowFacts(rate, PayoutAccepted(PayoutSet(r, Processing)))
  {
  }

  lemma DoneRowFacts(rate: real, r: Raffle, now: Time)
    requires RowFacts(rate, r) && r.payout.Some? && r.payout.value.status != Completed
    requires r.confirmedAt.Some? && r.payout.value.net > 0
    requires r.confirmedAt.value + PROTECTION_DAYS * DAY <= now
    ensures RowFacts(rate, PayoutDone(r, now))
  {
  }

  // ----- Ledger movements of a payout -----

  lemma DebitEntryBooked(entries: seq<Entry>, txs: seq<Tx>, i: nat, r: Raffle, next: Raffle, e: Entry)
    requires RowBooks(entries, txs, i, r) && !PayoutStarted(r) && r.releasedAt.None?
    requires e.kind == SellerPayableDebit && e.context == OnPayout(i, PayoutSettlement)
    requires PayoutCommitted(next) && e.amount == -Held(next) && next.releasedAt.None?
    requires next.dispute == r.dispute && next.tickets == r.tickets
    ensures RowBooks(entries + [e], txs, i, next)
  {
    BalanceAppend(entries, e, PayoutNet(i));
    BalanceAppend(entries, e, PayoutDebits(i));
    BalanceAppend(entries, e, DisputeRefunds(i));
    forall b: nat ensures Balance(entries + [e], RefundTo(i, b)) == RefundDue(next, b) {
      BalanceAppend(entries, e, RefundTo(i, b));
    }
  }

  lemma ReversalBooked(entries: seq<Entry>, txs: seq<Tx>, i: nat, r: Raffle, next: Raffle, e: Entry)
    requires RowBooks(entries, txs, i, r) && PayoutCommitted(r) && r.releasedAt.None?
    requires e.kind == SellerPayableCredit && e.context == OnPayout(i, PayoutFailedReversal) && e.amount == Held(r)
    requires PayoutStarted(next) && !PayoutCommitted(next) && next.releasedAt.None?
    requires next.dispute == r.dispute && next.tickets == r.tickets
    ensures RowBooks(entries + [e], txs, i, next)
  {
    BalanceAppend(entries, e, PayoutNet(i));
    BalanceAppend(entries, e, PayoutDebits(i));
    BalanceAppend(entries, e, DisputeRefunds(i));
    forall b: nat ensures Balance(entries + [e], RefundTo(i, b)) == RefundDue(next, b) {
      BalanceAppend(entries, e, RefundTo(i, b));
    }
  }

  lemma PaymentRecorded(entries: seq<Entry>, txs: seq<Tx>, i: nat, r: Raffle, next: Raffle, t: Tx)
    requires RowBooks(entries, txs, i, r) && PayoutCommitted(r) && r.releasedAt.None?
    requires t.kind == SellerPayment && t.raffle == Some(i) && t.amount == Held(r)
    requires PayoutCommitted(next) && next.releasedAt.Some? && Held(next) == Held(r)
    requires next.dispute == r.dispute && next.tickets == r.tickets
    ensures RowBooks(entries, txs + [t], i, next)
    ensures Sum(txs + [t], PlatformKept) == Sum(txs, PlatformKept)
  {
    SumAppend(txs, t, SellerPayments(i));
    SumAppend(txs, t, SellerPaid(i));
    SumAppend(txs, t, PlatformKept);
  }

  // ----- From one consistent state to the next -----

  /** Accepted by the provider: the debit is booked and the payout is under way. */
  function AcceptedDb(d: Db, i: nat): Result<Db, LedgerError>
    requires i < |d.raffles| && d.raffles[i].payout.Some?
  {
    RecordAccepted(SetRaffle(d, i, PayoutSet(d.raffles[i], Processing)), i)
  }

  lemma AcceptedKeeps(d: Db, i: nat, now: Time)
    requires Inv(d) && i < |d.raffles| && Attemptable(d.raffles[i], now)
    requires AcceptedDb(d, i).Success?
    ensures Inv(AcceptedDb(d, i).value)
    ensures AcceptedDb(d, i).value.raffles == d.raffles[i := PayoutAccepted(PayoutSet(d.raffles[i], Processing))]
  {
    RowOf(d, i);
    var r := d.raffles[i];
    var next := PayoutAccepted(PayoutSet(r, Processing));
    var e := DebitSellerPosts(d.books, r.seller, r.payout.value.net, OnPayout(i, PayoutSettlement));
    var books := DebitSeller(d.books, r.seller, r.payout.value.net, OnPayout(i, PayoutSettlement)).value;
    AcceptedRowFacts(d.config.feeRate, r);
    DebitEntryBooked(d.books.entries, d.txs, i, r, next, e);
    LocalEntry(d.books.entries, e, i);
    EverythingAppend(d.books.entries, e);
    MoneyStep(d, i, next, books, d.txs);
    AcceptedResult(d, i);
  }

  lemma AcceptedResult(d: Db, i: nat)
    requires i < |d.raffles| && d.raffles[i].payout.Some? && AcceptedDb(d, i).Success?
    ensures var r := d.raffles[i];
            var debit := DebitSeller(d.books, r.seller, r.payout.value.net, OnPayout(i, PayoutSettlement));
            && debit.Success?
            && AcceptedDb(d, i).value
               == SetRaffle(d, i, PayoutAccepted(PayoutSet(r, Processing))).(books := debit.value, txs := d.txs)
  {
  }

  /** MoneyRow when the transactions stay as they are. */
  lemma MoneyStep(d: Db, i: nat, r: Raffle, books: Books, txs: seq<Tx>)
    requires Inv(d) && i < |d.raffles| && |books.wallets| == |d.books.wallets| && txs == d.txs
    requires RowFacts(d.config.feeRate, r) && RowKnown(r, |books.wallets|)
    requires Kept(books) && OthersKept(d.books.entries, books.entries, i)
    requires RowBooks(books.entries, txs, i, r)
    requires Balance(books.entries, Everything) - Balance(d.books.entries, Everything) == Held(d.raffles[i]) - Held(r)
    ensures Inv(SetRaffle(d, i, r).(books := books, txs := txs))
  {
    MoneyRow(d, i, r, books, txs);
  }

  /** Completion of a payout under way, at once or by a later sync. */
  lemma CompleteKeeps(d: Db, i: nat, now: Time)
    requires Inv(d) && i < |d.raffles|
    requires d.raffles[i].payout.Some? && d.raffles[i].payout.value.status == Processing && Ripe(d.raffles[i], now)
    ensures Inv(CompletePayout(d, i, now))
  {
    RowOf(d, i);
    var r := d.raffles[i];
    var next := PayoutDone(r, now);
    var t := Tx(SellerPayment, r.seller, r.payout.value.net, r.payout.value.net, Some(i), None);
    DoneRowFacts(d.config.feeRate, r, now);
    PaymentRecorded(d.books.entries, d.txs, i, r, next, t);
    LocalTx(d.txs, t, i);
    MoneyRow(d, i, next, d.books, d.txs + [t]);
    assert CompletePayout(d, i, now) == SetRaffle(d, i, next).(books := d.books, txs := d.txs + [t]);
  }

  /** Giving back the money of a payout under way that failed. */
  function ReversedDb(d: Db, i: nat): Result<Db, LedgerError>
    requires i < |d.raffles| && d.raffles[i].payout.Some?
  {
    var r := d.raffles[i];
    match CreditSeller(d.books, r.seller, r.payout.value.net, OnPayout(i, PayoutFailedReversal))
    case Failure(e) => Failure(e)
    case Success(books) => Success(SetRaffle(d, i, PayoutSet(r, Failed)).(books := books))
  }

  lemma ReversedKeeps(d: Db, i: nat)
    requires Inv(d) && i < |d.raffles|
    requires d.raffles[i].payout.Some? && d.raffles[i].payout.value.status == Processing
    ensures ReversedDb(d, i).Success? && Inv(ReversedDb(d, i).value)
  {
    RowOf(d, i);
    var r := d.raffles[i];
    var next := PayoutSet(r, Failed);
    var e := CreditSellerPosts(d.books, r.seller, r.payout.value.net, OnPayout(i, PayoutFailedReversal));
    var books := CreditSeller(d.books, r.seller, r.payout.value.net, OnPayout(i, PayoutFailedReversal)).value;
    FailedRowFacts(d.config.feeRate, r);
    ReversalBooked(d.books.entries, d.txs, i, r, next, e);
    LocalEntry(d.books.entries, e, i);
    EverythingAppend(d.books.entries, e);
    MoneyStep(d, i, next, books, d.txs);
    assert ReversedDb(d, i).value == SetRaffle(d, i, next).(books := books, txs := d.txs);
  }

  /** A failure before anything was debited only marks the row. */
  lemma FailedEarlyKeeps(d: Db, i: nat, now: Time)
    requires Inv(d) && i < |d.raffles| && Attemptable(d.raffles[i], now)
    ensures Inv(SetRaffle(d, i, PayoutSet(d.raffles[i], Failed)))
  {
    RowOf(d, i);
    FailedRowFacts(d.config.feeRate, d.raffles[i]);
    ReplaceRowBooked(d, i, PayoutSet(d.raffles[i], Failed));
  }

  // ----- The attempt as a whole -----

  /** Before the debit, the failure handler finds none and only marks the row. */
  lemma FailBeforeDebit(d: Db, i: nat)
    requires Inv(d) && i < |d.raffles| && d.raffles[i].payout.Some? && !PayoutStarted(d.raffles[i])
    ensures FailPayout(SetRaffle(d, i, PayoutSet(d.raffles[i], Processing)), i)
         == SetRaffle(d, i, PayoutSet(d.raffles[i], Failed))
  {
    RowOf(d, i);
    DebitExists(d.books.entries, i);
    assert !HasPayoutDebit(d.books.entries, i);
    var r := d.raffles[i];
    assert d.raffles[i := PayoutSet(r, Processing)][i := PayoutSet(r, Failed)] == d.raffles[i := PayoutSet(r, Failed)];
  }

  /** After the debit, the failure handler finds it and gives the money back. */
  lemma FailAfterDebit(d: Db, i: nat)
    requires Inv(d) && i < |d.raffles|
    requires d.raffles[i].payout.Some? && d.raffles[i].payout.value.status == Processing
    ensures ReversedDb(d, i).Success? && FailPayout(d, i) == ReversedDb(d, i).value
  {
    RowOf(d, i);
    DebitExists(d.books.entries, i);
    assert HasPayoutDebit(d.books.entries, i);
    ReversedKeeps(d, i);
  }

  /** The states an attempt can end in. */
  lemma AttemptCases(d: Db, i: nat, now: Time, outcome: Outcome)
    requires Inv(d) && i < |d.raffles| && Attemptable(d.raffles[i], now)
    ensures var end := ProcessPayout(d, i, now, outcome).db;
            || end == SetRaffle(d, i, PayoutSet(d.raffles[i], Failed))
            || (AcceptedDb(d, i).Success? &&
                var a := AcceptedDb(d, i).value;
                || end == a
                || end == CompletePayout(a, i, now)
                || end == FailPayout(a, i))
  {
    FailBeforeDebit(d, i);
    AttemptUnfolds(d, i, now, outcome);
  }

  lemma AttemptUnfolds(d: Db, i: nat, now: Time, outcome: Outcome)
    requires i < |d.raffles| && Attemptable(d.raffles[i], now)
    ensures var start := SetRaffle(d, i, PayoutSet(d.raffles[i], Processing));
            var end := ProcessPayout(d, i, now, outcome).db;
            || end == FailPayout(start, i)
            || (AcceptedDb(d, i).Success? &&
                var a := AcceptedDb(d, i).value;
                || end == a
                || end == CompletePayout(a, i, now)
                || end == FailPayout(a, i))
  {
  }

  /** Whatever happens to an accepted payout in the same call, the outcome is consistent. */
  lemma AcceptedOutcomesKeep(d: Db, i: nat, now: Time)
    requires Inv(d) && i < |d.raffles| && Attemptable(d.raffles[i], now) && AcceptedDb(d, i).Success?
    ensures var a := AcceptedDb(d, i).value;
            Inv(a) && Inv(CompletePayout(a, i, now)) && Inv(FailPayout(a, i))
  {
    AcceptedKeeps(d, i, now);
    var a := AcceptedDb(d, i).value;
    FailAfterDebit(a, i);
    ReversedKeeps(a, i);
    CompleteKeeps(a, i, now);
  }

  lemma ProcessPayoutKeeps(d: Db, i: nat, now: Time, outcome: Outcome)
    requires Inv(d)
    ensures Inv(ProcessPayout(d, i, now, outcome).db)
  {
    if i < |d.raffles| && Attemptable(d.raffles[i], now) {
      AttemptCases(d, i, now, outcome);
      FailedEarlyKeeps(d, i, now);
      if AcceptedDb(d, i).Success? {
        AcceptedOutcomesKeep(d, i, now);
      }
    }
  }

  lemma SyncCases(d: Db, i: nat, now: Time, outcome: Outcome)
    ensures var end := SyncPayout(d, i, now, outcome).db;
            || end == d
            || (i < |d.raffles| && d.raffles[i].payout.Some? && d.raffles[i].payout.value.status == Processing &&
                (|| end == CompletePayout(d, i, now)
                 || (ReversedDb(d, i).Success? && end == ReversedDb(d, i).value)))
  {
  }

  lemma SyncPayoutKeeps(d: Db, i: nat, now: Time, outcome: Outcome)
    requires Inv(d) && PayoutsRipe(d, now)
    ensures Inv(SyncPayout(d, i, now, outcome).db)
  {
    SyncCases(d, i, now, outcome);
    if i < |d.raffles| && d.raffles[i].payout.Some? && d.raffles[i].payout.value.status == Processing {
      CompleteKeeps(d, i, now);
      ReversedKeeps(d, i);
    }
  }

  /**
   The weekly release: the delivery is confirmed now, so the payout attempt that follows in the same
   call is always refused, and the payout waits as pending.
   */
  lemma AutoReleaseResult(d: Db, i: nat, now: Time, outcome: Outcome)
    requires Inv(d) && i < |d.raffles| && AutoReleases(d.raffles[i], now)
    ensures var confirmed := AutoConfirm(d.raffles[i], now);
            AutoRelease(d, i, now, outcome).db
            == SetRaffle(d, i, Scheduled(WithPayout(d.config.feeRate, confirmed), now))
  {
    RowOf(d, i);
    var rate := d.config.feeRate;
    var r := d.raffles[i];
    AutoConfirmKeeps(rate, r, now);
    WithPayoutKeeps(rate, AutoConfirm(r, now));
    ReleaseResult(d, i, now, outcome);
  }

  lemma ReleaseResult(d: Db, i: nat, now: Time, outcome: Outcome)
    requires i < |d.raffles| && AutoReleases(d.raffles[i], now)
    requires var r := WithPayout(d.config.feeRate, AutoConfirm(d.raffles[i], now));
             r.payout.value.status == Pending && ReleaseHold(r, now).Some?
    ensures AutoRelease(d, i, now, outcome).db
         == SetRaffle(d, i, Scheduled(WithPayout(d.config.feeRate, AutoConfirm(d.raffles[i], now)), now))
  {
    var r := AutoConfirm(d.raffles[i], now);
    var w := WithPayout(d.config.feeRate, r);
    assert ReleaseHold(Scheduled(w, now), now) == ReleaseHold(w, now);
    var mid := SetRaffle(d, i, r);
    assert ProcessPayoutForRaffle(mid, i, now, outcome).db == SetRaffle(mid, i, Scheduled(w, now));
    assert d.raffles[i := r][i := Scheduled(w, now)] == d.raffles[i := Scheduled(w, now)];
  }

  lemma AutoReleaseKeeps(d: Db, i: nat, now: Time, outcome: Outcome)
    requires Inv(d)
    ensures Inv(AutoRelease(d, i, now, outcome).db)
  {
    if i < |d.raffles| && AutoReleases(d.raffles[i], now) {
      AutoReleaseResult(d, i, now, outcome);
      RowOf(d, i);
      var rate := d.config.feeRate;
      var r := d.raffles[i];
      AutoConfirmKeeps(rate, r, now);
      WithPayoutKeeps(rate, AutoConfirm(r, now));
      ScheduledKeeps(rate, WithPayout(rate, AutoConfirm(r, now)), now);
      ReplaceRow(d, i, Scheduled(WithPayout(rate, AutoConfirm(r, now)), now));
    }
  }
}
