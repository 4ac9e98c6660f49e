/** What each notice, webhook, mock action and refund of a credit top-up does to the session and the wallet. */
module TopUpOutcomes {
  import opened DisputeMath
  import opened Ledger
  import opened Market
  import opened MarketInvariant
  import opened Rounding
  import opened TopUpKeeps
  import opened TopUps
  import opened Wrappers

  /** The credit of one user changed by this much, and nothing else in any wallet. */
  predicate OnlyCredit(before: seq<Wallet>, after: seq<Wallet>, user: nat, amount: int) {
    && user < |before| == |after|
    && after[user].credit == before[user].credit + amount
    && after[user].payable == before[user].payable
    && forall u :: 0 <= u < |before| && u != user ==> after[u] == before[u]
  }

  /** Approved now with this amount in the user's wallet, and nothing else of the market changed. */
  ghost predicate CreditedNow(d: Db, e: Db, k: nat, payment: nat, amount: int, now: Time)
    requires k < |d.sessions|
  {
    var s := d.sessions[k];
    && |e.sessions| == |d.sessions| && e.raffles == d.raffles && e.config == d.config
    && (forall j :: 0 <= j < |d.sessions| && j != k ==> e.sessions[j] == d.sessions[j])
    && e.sessions[k] == s.(status := Approved, credited := amount, processedAt := Some(now),
                           paymentId := Some(payment), orderId := e.sessions[k].orderId)
    && OnlyCredit(d.books.wallets, e.books.wallets, s.user, amount)
  }

  lemma ApprovalCredits(d: Db, k: nat, n: Notice, now: Time)
    requires Inv(d) && k < |d.sessions|
    ensures var a := ApproveSession(d, k, n, now);
            var s := d.sessions[k];
            if s.processedAt.Some? then a == Ok(d)
            else if n.amount <= 0 then a.error.Some? && a.db == d
            else a.error.None? && CreditedNow(d, a.db, k, n.paymentId, n.amount, now) && a.db.providerEvents == d.providerEvents
  {
    SessionOf(d, k);
  }

  /** The provider's word for each state of a session. */
  predicate Reported(status: SessionStatus, notice: NoticeStatus) {
    && (status == Declined <==> notice == NoticeRejected)
    && (status == SessionStatus.Expired <==> notice == NoticeExpired)
    && (status == RefundedInFull <==> notice == NoticeRefunded)
    && (status == RefundedInPart <==> notice == NoticePartiallyRefunded)
    && (status == AwaitingPayment <==> notice == NoticePending)
    && (status == Approved <==> notice == NoticeApproved)
  }

  /** The session carries the reported state, is processed now and moved no money; all others are as they were. */
  ghost predicate LabelledNow(d: Db, e: Db, k: nat, n: Notice, now: Time)
    requires k < |d.sessions|
  {
    var s := d.sessions[k];
    && |e.sessions| == |d.sessions| && e.raffles == d.raffles && e.books == d.books && e.txs == d.txs
    && (forall j :: 0 <= j < |d.sessions| && j != k ==> e.sessions[j] == d.sessions[j])
    && Reported(e.sessions[k].status, n.status)
    && e.sessions[k].orderId == (if n.orderId.Some? then n.orderId else s.orderId)
    && e.sessions[k] == s.(status := e.sessions[k].status, processedAt := Some(now),
                           paymentId := Some(n.paymentId), orderId := e.sessions[k].orderId)
  }

  /** A notice for a session it matches credits an unprocessed one on approval and labels it otherwise. */
  lemma NoticeDoesExactly(d: Db, n: Notice, k: nat, now: Time)
    requires Inv(d) && k < |d.sessions| && Matches(d.sessions[k], n)
    ensures var a := SyncTopUp(d, n, Some(k), now);
            var s := d.sessions[k];
            if n.status != NoticeApproved then a.error.None? && LabelledNow(d, a.db, k, n, now)
            else if s.processedAt.Some? then a.error.None? && a.db.(providerEvents := d.providerEvents) == d
            else if n.amount <= 0 then a.error.Some? && a.db == d
            else a.error.None? && CreditedNow(d, a.db, k, n.paymentId, n.amount, now)
  {
    ApprovalCredits(d, k, n, now);
  }

  /** A notice that is applied, or that no session matches, leaves its payment on record; a failed one changes nothing. */
  lemma NoticeIsRecorded(d: Db, n: Notice, found: Option<nat>, now: Time)
    ensures var a := SyncTopUp(d, n, found, now);
            var unmatched := forall k :: 0 <= k < |d.sessions| ==> !Matches(d.sessions[k], n);
            && (a.error.None? ==> a.db.providerEvents == d.providerEvents + {PaymentEvent(n.paymentId)})
            && (a.error.Some? ==> a.db == d)
            && (unmatched ==> a.error.None? && a.db.(providerEvents := d.providerEvents) == d)
  {
  }

  /** A new webhook does what its notice does and is remembered exactly when that succeeds, so a failed one can be repeated. */
  lemma WebhookDoesItsNotice(d: Db, kind: nat, n: Notice, found: Option<nat>, now: Time)
    requires WebhookEvent(kind, n.paymentId) !in d.providerEvents
    ensures var a := Webhook(d, kind, n, found, now);
            var b := SyncTopUp(d, n, found, now);
            && a.error == b.error
            && a.db.(providerEvents := b.db.providerEvents) == b.db
            && (a.error.Some? ==> a.db == d)
            && (a.error.None? <==> WebhookEvent(kind, n.paymentId) in a.db.providerEvents)
  {
  }

  /** A mock session is credited with the amount it was opened for, exactly when it was not processed or closed. */
  lemma MockApprovesExactly(d: Db, k: nat, now: Time)
    requires Inv(d) && k < |d.sessions|
    ensures var a := MockStep(d, k, MockApprove, now);
            var s := d.sessions[k];
            var open := s.provider == Mock && s.processedAt.None? && s.amount > 0
                        && s.status in {Initiated, AwaitingPayment, Approved};
            && (open ==> a.error.None? && CreditedNow(d, a.db, k, k, s.amount, now))
            && (!open ==> a.db == d)
  {
    var s := d.sessions[k];
    ApprovalCredits(d, k, Notice(k, NoticeApproved, s.amount, Some(s.reference), s.orderId), now);
  }

  /** The other mock actions set the status they name, close the session or not, and move no money. */
  lemma MockLabelsExactly(d: Db, k: nat, now: Time)
    requires k < |d.sessions| && d.sessions[k].provider == Mock
    ensures var s := d.sessions[k];
            && MockStep(d, k, MockPend, now) == Ok(d.(sessions := d.sessions[k := s.(status := AwaitingPayment)]))
            && MockStep(d, k, MockReject, now)
               == Ok(d.(sessions := d.sessions[k := s.(status := Declined, processedAt := Some(now))]))
            && MockStep(d, k, MockExpire, now)
               == Ok(d.(sessions := d.sessions[k := s.(status := SessionStatus.Expired, processedAt := Some(now))]))
  {
  }

  /** What is asked to be given back: the nearest cent of the amount, or all that is left. */
  ghost predicate Asked(s: Session, amount: Option<real>, cents: int) {
    match amount
    case Some(x) => Nearest(cents, x)
    case None => cents == s.credited - s.refunded
  }

  /**
   A refund is made exactly of an approved top-up, within what is left of it and within the user's credit, and
   when the provider agrees; it takes exactly that amount out of the wallet. Otherwise nothing changes.
   */
  lemma RefundedExactly(d: Db, k: nat, amount: Option<real>, providerOk: bool, cents: int)
    requires Inv(d) && k < |d.sessions| && Asked(d.sessions[k], amount, cents)
    ensures d.sessions[k].user < |d.books.wallets|
    ensures var s := d.sessions[k];
            var a := RefundTopUp(d, k, amount, providerOk);
            && (a.error.None? <==>
                  && s.status == Approved
                  && 0 < cents <= s.credited - s.refunded
                  && cents <= d.books.wallets[s.user].credit
                  && (s.provider == MercadoPago ==> s.paymentId.Some? && providerOk))
            && (a.error.Some? ==> a.db == d)
            && (a.error.None? ==>
                  && |a.db.sessions| == |d.sessions|
                  && a.db.sessions[k] == s.(refunded := s.refunded + cents,
                                            status := if s.refunded + cents == s.credited then RefundedInFull else RefundedInPart)
                  && OnlyCredit(d.books.wallets, a.db.books.wallets, s.user, -cents)
                  && a.db.raffles == d.raffles && a.db.txs == d.txs)
  {
    SessionOf(d, k);
    if amount.Some? {
      RoundNearest(amount.value);
      OneNearest(amount.value, cents, RoundHalfUp(amount.value));
    }
  }

  lemma OneNearest(x: real, a: int, b: int)
    requires Nearest(a, x) && Nearest(b, x)
    ensures a == b
  {
  }

  /** A session is opened for the nearest positive number of cents, for a known user, and starts unprocessed. */
  lemma OpenedExactly(d: Db, user: nat, provider: Provider, reference: nat, orderId: Option<nat>, amount: real, cents: int)
    requires Nearest(cents, amount)
    ensures var a := OpenSession(d, user, provider, reference, orderId, amount);
            && (a.error.None? <==> cents > 0 && user < |d.books.wallets|)
            && (a.error.Some? ==> a.db == d)
            && (a.error.None? ==>
                  && |a.db.sessions| == |d.sessions| + 1 && a.db.sessions[..|d.sessions|] == d.sessions
                  && var s := a.db.sessions[|d.sessions|];
                  && s.user == user && s.provider == provider && s.reference == reference && s.amount == cents
                  && s.credited == 0 && s.refunded == 0 && s.processedAt.None? && s.status == Initiated
                  && a.db.books == d.books)
  {
    RoundNearest(amount);
    OneNearest(amount, cents, RoundHalfUp(amount));
  }
}
