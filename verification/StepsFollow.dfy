/** Every call only moves rows and sessions forward, and keeps payouts under way ripe. */
module StepsFollow {
  import opened DisputeMath
  import opened History
  import opened Ledger
  import opened LifecycleKeeps
  import opened Market
  import opened MarketInvariant
  import opened PayoutKeeps
  import opened PromotionPricing
  import opened RaffleInvariant
  import opened Raffles
  import opened RefundKeeps
  import opened TopUpKeeps
  import opened Tickets
  import opened TopUps
  import opened Wrappers

  // ----- Catalogue and purchases -----

  lemma CreateFollows(d: Db, seller: nat, total: nat, price: nat, deadline: Time, now: Time)
    ensures DbFollows(d, CreateRaffle(d, seller, total, price, deadline).db, now)
  {
    NewRow(d, Created(seller, total, price, deadline), now);
    Unchanged(d, now);
  }

  lemma RelaunchFollows(d: Db, i: nat, user: nat, price: nat, deadline: Time, now: Time)
    ensures DbFollows(d, Relaunch(d, i, user, price, deadline).db, now)
  {
    Unchanged(d, now);
    if i < |d.raffles| {
      CreateFollows(d, user, d.raffles[i].total, price, deadline, now);
    }
  }

  lemma UpdatePriceFollows(d: Db, i: nat, user: nat, price: nat, now: Time)
    ensures DbFollows(d, UpdatePrice(d, i, user, price).db, now)
  {
    Unchanged(d, now);
    if i < |d.raffles| {
      OneRow(d, SetRaffle(d, i, d.raffles[i].(price := price)), i, d.raffles[i].(price := price), now);
    }
  }

  lemma ExtendDeadlineFollows(d: Db, i: nat, user: nat, deadline: Time, now: Time)
    ensures DbFollows(d, ExtendDeadline(d, i, user, deadline, now).db, now)
  {
    Unchanged(d, now);
    if i < |d.raffles| {
      OneRow(d, SetRaffle(d, i, d.raffles[i].(deadline := deadline)), i, d.raffles[i].(deadline := deadline), now);
    }
  }

  lemma SetHiddenFollows(d: Db, i: nat, hidden: bool, now: Time)
    ensures DbFollows(d, SetHidden(d, i, hidden).db, now)
  {
    Unchanged(d, now);
    if i < |d.raffles| {
      OneRow(d, SetHidden(d, i, hidden).db, i, d.raffles[i].(hidden := hidden), now);
    }
  }

  lemma BuyFollows(d: Db, i: nat, buyer: nat, q: Request, bonus: Option<BonusTerms>, now: Time)
    requires i < |d.raffles| ==> DrawsFit(d.raffles[i], buyer, q)
    ensures DbFollows(d, Buy(d, i, buyer, q, bonus).db, now)
  {
    Unchanged(d, now);
    if Buy(d, i, buyer, q, bonus).error.None? {
      var r := d.raffles[i];
      var next := r.(tickets := Bought(r.tickets, ReservedNumbers(r, buyer, q), buyer, r.price));
      BuyResult(d, i, buyer, q, bonus);
      OneRow(d, Buy(d, i, buyer, q, bonus).db, i, next, now);
    }
  }

  lemma BuyResult(d: Db, i: nat, buyer: nat, q: Request, bonus: Option<BonusTerms>)
    requires i < |d.raffles| && DrawsFit(d.raffles[i], buyer, q)
    requires Buy(d, i, buyer, q, bonus).error.None?
    ensures var r := d.raffles[i];
            var next := r.(tickets := Bought(r.tickets, ReservedNumbers(r, buyer, q), buyer, r.price));
            var e := Buy(d, i, buyer, q, bonus).db;
            && PurchaseCheck(r, buyer, q).None?
            && e.config == d.config && |e.books.wallets| == |d.books.wallets| && e.sessions == d.sessions
            && e.providerEvents == d.providerEvents
            && e.raffles == d.raffles[i := next]
  {
  }

  // ----- Draw and delivery -----

  lemma DrawnFollows(rate: real, r: Raffle, pick: nat, now: Time)
    requires RowFacts(rate, r) && Draw(r, pick, now).Success?
    ensures Follows(r, Draw(r, pick, now).value, now)
    ensures Follows(r, WithPayout(rate, Draw(r, pick, now).value), now)
  {
  }

  lemma DrawIfEligibleFollows(d: Db, i: nat, pick: nat, now: Time, fault: Fault)
    requires Inv(d)
    ensures DbFollows(d, DrawIfEligible(d, i, pick, now, fault).db, now)
  {
    Unchanged(d, now);
    if i < |d.raffles| && Draw(d.raffles[i], pick, now).Success? {
      RowOf(d, i);
      DrawnFollows(d.config.feeRate, d.raffles[i], pick, now);
      var r := Draw(d.raffles[i], pick, now).value;
      OneRow(d, SetRaffle(d, i, r), i, r, now);
      OneRow(d, SetRaffle(d, i, WithPayout(d.config.feeRate, r)), i, WithPayout(d.config.feeRate, r), now);
    }
  }

  lemma SelectWinnerFollows(d: Db, i: nat, pick: nat, now: Time, fault: Fault)
    requires Inv(d)
    ensures DbFollows(d, SelectWinner(d, i, pick, now, fault).db, now)
  {
    Unchanged(d, now);
    if i < |d.raffles| && Draw(d.raffles[i], pick, now).Success? {
      RowOf(d, i);
      DrawnFollows(d.config.feeRate, d.raffles[i], pick, now);
      var r := Draw(d.raffles[i], pick, now).value;
      OneRow(d, SetRaffle(d, i, r), i, r, now);
      OneRow(d, SetRaffle(d, i, WithPayout(d.config.feeRate, r)), i, WithPayout(d.config.feeRate, r), now);
    }
  }

  lemma CheckCompletionFollows(d: Db, i: nat, pick: nat, now: Time, fault: Fault)
    requires Inv(d)
    ensures DbFollows(d, CheckCompletion(d, i, pick, now, fault).db, now)
  {
    Unchanged(d, now);
    if i < |d.raffles| && PaidCount(d.raffles[i].tickets) >= d.raffles[i].total {
      var r := d.raffles[i];
      var full := if r.status == Active then r.(status := SoldOut) else r;
      OneRow(d, SetRaffle(d, i, full), i, full, now);
      RowOf(d, i);
      ReplaceRow(d, i, full);
      DrawIfEligibleFollows(SetRaffle(d, i, full), i, pick, now, fault);
      DbFollowsTwice(d, SetRaffle(d, i, full), CheckCompletion(d, i, pick, now, fault).db, now);
    }
  }

  lemma RejectWinnerFollows(d: Db, i: nat, now: Time)
    requires Inv(d)
    ensures DbFollows(d, RejectWinnerStep(d, i).db, now)
  {
    Unchanged(d, now);
    if i < |d.raffles| {
      RowOf(d, i);
      RowStepFollows(d, i, RejectWinner(d.raffles[i]), now);
    }
  }

  lemma CancelFollows(d: Db, i: nat, user: nat, now: Time)
    requires Inv(d)
    ensures DbFollows(d, CancelStep(d, i, user).db, now)
  {
    Unchanged(d, now);
    if i < |d.raffles| {
      RowOf(d, i);
      RowStepFollows(d, i, Cancel(d.raffles[i], user), now);
    }
  }

  lemma ShipFollows(d: Db, i: nat, user: nat, now: Time)
    requires Inv(d)
    ensures DbFollows(d, ShipStep(d, i, user, now).db, now)
  {
    Unchanged(d, now);
    if i < |d.raffles| {
      RowOf(d, i);
      RowStepFollows(d, i, Ship(d.raffles[i], user, now), now);
    }
  }

  lemma ConfirmedFollows(rate: real, r: Raffle, user: nat, now: Time, fault: Fault)
    requires RowFacts(rate, r) && Confirm(r, user, now).Success?
    ensures Follows(r, ScheduleRow(rate, Confirm(r, user, now).value, now, fault), now)
  {
  }

  lemma ConfirmFollows(d: Db, i: nat, user: nat, now: Time, fault: Fault)
    requires Inv(d)
    ensures DbFollows(d, ConfirmStep(d, i, user, now, fault).db, now)
  {
    Unchanged(d, now);
    if i < |d.raffles| && Confirm(d.raffles[i], user, now).Success? {
      RowOf(d, i);
      ConfirmedFollows(d.config.feeRate, d.raffles[i], user, now, fault);
      var r := ScheduleRow(d.config.feeRate, Confirm(d.raffles[i], user, now).value, now, fault);
      OneRow(d, SetRaffle(d, i, r), i, r, now);
    }
  }

  // ----- Refunds -----

  lemma MarkedLater(tickets: seq<Ticket>, ids: set<nat>)
    ensures TicketsLater(tickets, Marked(tickets, ids))
  {
  }

  lemma CancelAndRefundFollows(d: Db, i: nat, now: Time)
    requires Inv(d) && i < |d.raffles| && d.raffles[i].status == Active
    ensures DbFollows(d, CancelAndRefund(d, i).db, now)
  {
    Unchanged(d, now);
    if RefundTickets(d, i).error.None? {
      CancelResult(d, i);
      var r := d.raffles[i];
      RefundAllPosts(d.books, i, r.seller, r.tickets);
      MarkedLater(r.tickets, AllPaid(r.tickets));
      OneRow(d, CancelAndRefund(d, i).db, i, CancelledRow(r), now);
    }
  }

  lemma ProcessExpiredFollows(d: Db, i: nat, pick: nat, now: Time, fault: Fault)
    requires Inv(d)
    ensures DbFollows(d, ProcessExpired(d, i, pick, now, fault).db, now)
  {
    Unchanged(d, now);
    if i < |d.raffles| && Expires(d.raffles[i], now) {
      DrawIfEligibleFollows(d, i, pick, now, fault);
      if d.raffles[i].status == Active {
        CancelAndRefundFollows(d, i, now);
      }
    }
  }

  // ----- Disputes -----

  lemma OpenedFollows(rate: real, r: Raffle, user: nat, now: Time)
    requires RowFacts(rate, r) && OpenDispute(r, user, now).Success?
    ensures Follows(r, OpenDispute(r, user, now).value, now)
  {
  }

  lemma OpenDisputeFollows(d: Db, i: nat, user: nat, now: Time)
    requires Inv(d)
    ensures DbFollows(d, OpenDisputeStep(d, i, user, now).db, now)
  {
    Unchanged(d, now);
    if i < |d.raffles| {
      RowOf(d, i);
      if OpenDispute(d.raffles[i], user, now).Success? {
        OpenedFollows(d.config.feeRate, d.raffles[i], user, now);
      }
      RowStepFollows(d, i, OpenDispute(d.raffles[i], user, now), now);
    }
  }

  lemma RespondFollows(d: Db, i: nat, user: nat, now: Time)
    requires Inv(d)
    ensures DbFollows(d, RespondStep(d, i, user, now).db, now)
  {
    Unchanged(d, now);
    if i < |d.raffles| {
      RowStepFollows(d, i, RespondDispute(d.raffles[i], user, now), now);
    }
  }

  lemma ClosedFollows(rate: real, r: Raffle, ids: set<nat>, decision: Decision, split: Split, now: Time)
    requires RowFacts(rate, r) && DisputeActive(r)
    ensures Follows(r, RefundedRow(r, ids, decision, split, now), now)
    ensures Follows(r, CloseDispute(r, decision, split, now), now)
  {
    MarkedLater(r.tickets, ids);
  }

  lemma PlainResolveFollows(d: Db, i: nat, decision: Decision, split: Split, now: Time)
    requires Inv(d) && i < |d.raffles| && DisputeActive(d.raffles[i])
    ensures DbFollows(d, SetRaffle(d, i, CloseDispute(d.raffles[i], decision, split, now)), now)
  {
    RowOf(d, i);
    ClosedFollows(d.config.feeRate, d.raffles[i], {}, decision, split, now);
    var r := CloseDispute(d.raffles[i], decision, split, now);
    OneRow(d, SetRaffle(d, i, r), i, r, now);
  }

  lemma RefundResolveFollows(d: Db, i: nat, decision: Decision, split: Split, ids: set<nat>, books: Books, now: Time)
    requires Inv(d) && i < |d.raffles| && DisputeActive(d.raffles[i]) && |books.wallets| == |d.books.wallets|
    ensures DbFollows(d, SetRaffle(d, i, RefundedRow(d.raffles[i], ids, decision, split, now)).(books := books, txs := d.txs), now)
  {
    RowOf(d, i);
    ClosedFollows(d.config.feeRate, d.raffles[i], ids, decision, split, now);
    var r := RefundedRow(d.raffles[i], ids, decision, split, now);
    OneRow(d, SetRaffle(d, i, r).(books := books, txs := d.txs), i, r, now);
  }

  /** What a resolution can leave behind. */
  lemma ResolveEnds(d: Db, i: nat, decision: Decision, refund: Option<real>, seller: Option<real>, now: Time)
    returns (split: Split, ids: set<nat>, books: Books)
    ensures var end := Resolve(d, i, decision, refund, seller, now).db;
            || end == d
            || (i < |d.raffles| && DisputeActive(d.raffles[i]) && |books.wallets| == |d.books.wallets| &&
                (|| end == SetRaffle(d, i, CloseDispute(d.raffles[i], decision, split, now))
                 || end == SetRaffle(d, i, RefundedRow(d.raffles[i], ids, decision, split, now)).(books := books, txs := d.txs)))
  {
    split, ids, books := Split(0, 0), {}, d.books;
    if i < |d.raffles| && DisputeActive(d.raffles[i]) {
      var r := d.raffles[i];
      var buyer := r.dispute.value.reporter;
      var amounts := SplitAmounts(decision, PaidBy(r.tickets, buyer), refund, seller);
      if amounts.Success? {
        split := amounts.value;
        if split.refund > 0 && DisputeRefund(d, i, buyer, split.refund).error.None? {
          ResolveResult(d, i, decision, refund, seller, now);
          DisputeWallets(d.books, i, buyer, r.seller, split.refund);
          ids := Members(RefundedPositions(r.tickets, buyer, split.refund));
          books := DisputeBooks(d.books, i, buyer, r.seller, split.refund).value;
        }
      }
    }
  }

  lemma ResolveFollows(d: Db, i: nat, decision: Decision, refund: Option<real>, seller: Option<real>, now: Time)
    requires Inv(d)
    ensures DbFollows(d, Resolve(d, i, decision, refund, seller, now).db, now)
  {
    Unchanged(d, now);
    var split, ids, books := ResolveEnds(d, i, decision, refund, seller, now);
    if i < |d.raffles| && DisputeActive(d.raffles[i]) && |books.wallets| == |d.books.wallets| {
      PlainResolveFollows(d, i, decision, split, now);
      RefundResolveFollows(d, i, decision, split, ids, books, now);
    }
  }

  lemma DisputeWallets(b: Books, i: nat, buyer: nat, seller: nat, cents: int)
    requires DisputeBooks(b, i, buyer, seller, cents).Success?
    ensures |DisputeBooks(b, i, buyer, seller, cents).value.wallets| == |b.wallets|
  {
  }

  lemma AutoRefundFollows(d: Db, i: nat, now: Time)
    requires Inv(d)
    ensures DbFollows(d, AutoRefund(d, i, now).db, now)
  {
    Unchanged(d, now);
    if i < |d.raffles| && TimesOut(d.raffles[i], now) {
      var paid := PaidBy(d.raffles[i].tickets, d.raffles[i].dispute.value.reporter);
      ResolveFollows(d, i, ForBuyer, Some(paid as real), Some(0.0), now);
    }
  }

  // ----- Payouts -----

  lemma AttemptedFollows(r: Raffle, now: Time, at: Time)
    requires Attemptable(r, now)
    ensures var under := PayoutAccepted(PayoutSet(r, Processing));
            && Follows(r, PayoutSet(r, Failed), now)
            && Follows(r, under, now)
            && Follows(r, PayoutDone(under, at), now)
            && Follows(r, PayoutSet(under, Failed), now)
  {
  }

  ghost predicate OnlyRow(d: Db, e: Db, i: nat, r: Raffle)
    requires i < |d.raffles|
  {
    && e.config == d.config && |e.books.wallets| == |d.books.wallets| && e.sessions == d.sessions
    && e.providerEvents == d.providerEvents
    && e.raffles == d.raffles[i := r]
  }

  lemma OnlyRowTwice(d: Db, mid: Db, e: Db, i: nat, r1: Raffle, r2: Raffle)
    requires i < |d.raffles| && OnlyRow(d, mid, i, r1) && OnlyRow(mid, e, i, r2)
    ensures OnlyRow(d, e, i, r2)
  {
  }

  lemma ReversedRow(d: Db, i: nat)
    requires i < |d.raffles| && d.raffles[i].payout.Some? && ReversedDb(d, i).Success?
    ensures OnlyRow(d, ReversedDb(d, i).value, i, PayoutSet(d.raffles[i], Failed))
  {
  }

  /** The rows after an attempt that the provider accepted. */
  lemma AcceptedRows(d: Db, i: nat, now: Time)
    requires Inv(d) && i < |d.raffles| && Attemptable(d.raffles[i], now) && AcceptedDb(d, i).Success?
    ensures var a := AcceptedDb(d, i).value;
            var under := PayoutAccepted(PayoutSet(d.raffles[i], Processing));
            && OnlyRow(d, a, i, under)
            && OnlyRow(d, CompletePayout(a, i, now), i, PayoutDone(under, now))
            && OnlyRow(d, FailPayout(a, i), i, PayoutSet(under, Failed))
  {
    AcceptedKeeps(d, i, now);
    AcceptedResult(d, i);
    var a := AcceptedDb(d, i).value;
    FailAfterDebit(a, i);
    ReversedRow(a, i);
    var under := PayoutAccepted(PayoutSet(d.raffles[i], Processing));
    OnlyRowTwice(d, a, CompletePayout(a, i, now), i, under, PayoutDone(under, now));
    OnlyRowTwice(d, a, FailPayout(a, i), i, under, PayoutSet(under, Failed));
  }

  lemma ProcessPayoutFollows(d: Db, i: nat, now: Time, outcome: Outcome)
    requires Inv(d)
    ensures DbFollows(d, ProcessPayout(d, i, now, outcome).db, now)
  {
    Unchanged(d, now);
    if i < |d.raffles| && Attemptable(d.raffles[i], now) {
      var r := d.raffles[i];
      var under := PayoutAccepted(PayoutSet(r, Processing));
      AttemptCases(d, i, now, outcome);
      AttemptedFollows(r, now, now);
      OneRow(d, SetRaffle(d, i, PayoutSet(r, Failed)), i, PayoutSet(r, Failed), now);
      if AcceptedDb(d, i).Success? {
        AcceptedFollows(d, i, now);
      }
    }
  }

  lemma AcceptedFollows(d: Db, i: nat, now: Time)
    requires Inv(d) && i < |d.raffles| && Attemptable(d.raffles[i], now) && AcceptedDb(d, i).Success?
    ensures var a := AcceptedDb(d, i).value;
            && DbFollows(d, a, now)
            && DbFollows(d, CompletePayout(a, i, now), now)
            && DbFollows(d, FailPayout(a, i), now)
  {
    var r := d.raffles[i];
    var under := PayoutAccepted(PayoutSet(r, Processing));
    AttemptedFollows(r, now, now);
    AcceptedRows(d, i, now);
    var a := AcceptedDb(d, i).value;
    OneRow(d, a, i, under, now);
    OneRow(d, CompletePayout(a, i, now), i, PayoutDone(under, now), now);
    OneRow(d, FailPayout(a, i), i, PayoutSet(under, Failed), now);
  }

  lemma SettledFollows(rate: real, r: Raffle, now: Time)
    requires RowFacts(rate, r) && r.payout.Some? && r.payout.value.status == Processing
    ensures Follows(r, PayoutDone(r, now), now) && Follows(r, PayoutSet(r, Failed), now)
  {
  }

  lemma SyncPayoutFollows(d: Db, i: nat, now: Time, outcome: Outcome)
    requires Inv(d)
    ensures DbFollows(d, SyncPayout(d, i, now, outcome).db, now)
  {
    Unchanged(d, now);
    SyncCases(d, i, now, outcome);
    if i < |d.raffles| && d.raffles[i].payout.Some? && d.raffles[i].payout.value.status == Processing {
      RowOf(d, i);
      SettledFollows(d.config.feeRate, d.raffles[i], now);
      OneRow(d, CompletePayout(d, i, now), i, PayoutDone(d.raffles[i], now), now);
      if ReversedDb(d, i).Success? {
        OneRow(d, ReversedDb(d, i).value, i, PayoutSet(d.raffles[i], Failed), now);
      }
    }
  }

  lemma ReleasedFollows(rate: real, r: Raffle, now: Time)
    requires RowFacts(rate, r) && AutoReleases(r, now)
    ensures Follows(r, Scheduled(WithPayout(rate, AutoConfirm(r, now)), now), now)
  {
  }

  lemma AutoReleaseFollows(d: Db, i: nat, now: Time, outcome: Outcome)
    requires Inv(d)
    ensures DbFollows(d, AutoRelease(d, i, now, outcome).db, now)
  {
    Unchanged(d, now);
    if i < |d.raffles| && AutoReleases(d.raffles[i], now) {
      RowOf(d, i);
      AutoReleaseResult(d, i, now, outcome);
      ReleasedFollows(d.config.feeRate, d.raffles[i], now);
      var r := Scheduled(WithPayout(d.config.feeRate, AutoConfirm(d.raffles[i], now)), now);
      OneRow(d, SetRaffle(d, i, r), i, r, now);
    }
  }

  // ----- Top-ups -----

  lemma OpenSessionFollows(d: Db, user: nat, provider: Provider, reference: nat, orderId: Option<nat>, amount: real, now: Time)
    ensures DbFollows(d, OpenSession(d, user, provider, reference, orderId, amount).db, now)
  {
  }

  lemma ApproveFollows(d: Db, k: nat, n: Notice, now: Time)
    requires Inv(d) && k < |d.sessions|
    ensures DbFollows(d, ApproveSession(d, k, n, now).db, now)
  {
    Unchanged(d, now);
    SessionOf(d, k);
    ApproveResult(d, k, n, now);
    if d.sessions[k].processedAt.None? {
      if CreditUser(d.books, d.sessions[k].user, n.amount, CreditTopUp, OnSession(k)).Success? {
        OneSession(d, ApproveSession(d, k, n, now).db, k, Credited(d.sessions[k], n, now), now);
      }
    }
  }

  lemma EventsFollow(d: Db, e: Db, events: set<EventKey>, now: Time)
    requires DbFollows(d, e, now) && d.providerEvents <= events
    ensures DbFollows(d, e.(providerEvents := events), now)
  {
  }

  lemma ApprovedSyncFollows(d: Db, n: Notice, k: nat, now: Time)
    requires Inv(d) && k < |d.sessions| && Matches(d.sessions[k], n) && n.status == NoticeApproved
    ensures DbFollows(d, SyncTopUp(d, n, Some(k), now).db, now)
  {
    ApproveFollows(d, k, n, now);
    var e := ApproveSession(d, k, n, now).db;
    EventsFollow(d, e, e.providerEvents + {PaymentEvent(n.paymentId)}, now);
  }

  lemma OtherSyncFollows(d: Db, n: Notice, k: nat, now: Time)
    requires Inv(d) && k < |d.sessions| && Matches(d.sessions[k], n) && n.status != NoticeApproved
    ensures DbFollows(d, SyncTopUp(d, n, Some(k), now).db, now)
  {
    SessionOf(d, k);
    var s := Updated(d.sessions[k], n, now);
    OneSession(d, SetSession(d, k, s), k, s, now);
    EventsFollow(d, SetSession(d, k, s), d.providerEvents + {PaymentEvent(n.paymentId)}, now);
  }

  lemma SyncTopUpFollows(d: Db, n: Notice, found: Option<nat>, now: Time)
    requires Inv(d)
    ensures DbFollows(d, SyncTopUp(d, n, found, now).db, now)
  {
    if !Finds(d, n, found) {
      Unchanged(d, now);
      EventsFollow(d, d, d.providerEvents + {PaymentEvent(n.paymentId)}, now);
    } else if n.status == NoticeApproved {
      ApprovedSyncFollows(d, n, found.value, now);
    } else {
      OtherSyncFollows(d, n, found.value, now);
    }
  }

  lemma WebhookFollows(d: Db, kind: nat, n: Notice, found: Option<nat>, now: Time)
    requires Inv(d)
    ensures DbFollows(d, Webhook(d, kind, n, found, now).db, now)
  {
    Unchanged(d, now);
    SyncTopUpFollows(d, n, found, now);
    var synced := SyncTopUp(d, n, found, now).db;
    EventsFollow(d, synced, synced.providerEvents + {WebhookEvent(kind, n.paymentId)}, now);
  }

  lemma MockFollows(d: Db, k: nat, action: MockAction, now: Time)
    requires Inv(d)
    ensures DbFollows(d, MockStep(d, k, action, now).db, now)
  {
    Unchanged(d, now);
    if k < |d.sessions| && d.sessions[k].provider == Mock {
      var s := d.sessions[k];
      SessionOf(d, k);
      match action
      case MockPend => OneSession(d, MockStep(d, k, action, now).db, k, s.(status := AwaitingPayment), now);
      case MockReject => OneSession(d, MockStep(d, k, action, now).db, k, Closed(s, Declined, now), now);
      case MockExpire => OneSession(d, MockStep(d, k, action, now).db, k, Closed(s, Expired, now), now);
      case MockApprove => ApproveFollows(d, k, Notice(k, NoticeApproved, s.amount, Some(s.reference), s.orderId), now);
    }
  }

  lemma RefundTopUpFollows(d: Db, k: nat, amount: Option<real>, providerOk: bool, now: Time)
    requires Inv(d)
    ensures DbFollows(d, RefundTopUp(d, k, amount, providerOk).db, now)
  {
    Unchanged(d, now);
    if RefundTopUp(d, k, amount, providerOk).error.None? {
      RefundTopUpResult(d, k, amount, providerOk);
      SessionOf(d, k);
      var s := d.sessions[k];
      var books := DebitUser(d.books, s.user, RefundCents(s, amount), CreditTopUpRefund, OnSession(k)).value;
      RefundedSession(d, RefundTopUp(d, k, amount, providerOk).db, k, RefundCents(s, amount), books, now);
    }
  }

  lemma RefundedSession(d: Db, e: Db, k: nat, cents: int, books: Books, now: Time)
    requires k < |d.sessions| && SessionFacts(d.sessions[k]) && d.sessions[k].status == Approved && cents > 0
    requires e == SetSession(d, k, AfterRefund(d.sessions[k], cents)).(books := books, txs := d.txs)
    requires |books.wallets| == |d.books.wallets|
    ensures DbFollows(d, e, now)
  {
    OneSession(d, e, k, AfterRefund(d.sessions[k], cents), now);
  }
}
