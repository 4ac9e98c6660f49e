/**
 Who may bring about what: whenever a call changes an important fact about a raffle, it was the call, the
 caller and the moment that are meant to change it. Proved for every call there is.
 */
module Attribution {
  import opened DisputeMath
  import opened LifecycleKeeps
  import opened Market
  import opened MarketInvariant
  import opened PayoutKeeps
  import opened RaffleInvariant
  import opened Raffles
  import RefundKeeps
  import opened Runs
  import opened StepsFollow
  import opened Tickets
  import opened Wrappers

  predicate HoldsPaidTicket(tickets: seq<Ticket>, user: nat) {
    exists k :: 0 <= k < |tickets| && tickets[k].buyer == user && !tickets[k].refunded
  }

  /** A winner appears only by a draw among the paid tickets. */
  ghost predicate WinnerExplained(r: Raffle, s: Raffle, c: Call) {
    s.winner != r.winner && s.winner.Some? ==>
      && c.OnRaffleRow? && (c.step.Completion? || c.step.AdminDraw? || c.step.Expiry?)
      && (r.status == Active || r.status == SoldOut)
      && HoldsPaidTicket(r.tickets, s.winner.value)
  }

  /** A delivery is confirmed with a date only by the winner after shipping, or by the weekly release. */
  ghost predicate ConfirmationExplained(r: Raffle, s: Raffle, c: Call, at: Time) {
    s.confirmedAt != r.confirmedAt ==>
      && s.confirmedAt == Some(at)
      && (|| (c.OnRaffleRow? && c.step.ConfirmedBy? && r.winner == Some(c.step.user) && r.delivery == Shipped)
          || (c.OnPayoutRow? && c.payout.WeeklyRelease? && AutoReleases(r, at)))
  }

  /** A dispute appears only when the winner opens it, on a drawn or shipped raffle. */
  ghost predicate DisputeExplained(r: Raffle, s: Raffle, c: Call) {
    r.dispute.None? && s.dispute.Some? ==>
      && c.OnDispute? && c.dispute.OpenedBy? && r.winner == Some(c.dispute.user)
      && s.dispute.value.reporter == c.dispute.user
      && (r.status == Drawn || (r.status == InDelivery && r.delivery == Shipped))
  }

  /** A dispute is resolved only by an administrator's resolution or after fifteen days. */
  ghost predicate ResolutionExplained(r: Raffle, s: Raffle, c: Call, at: Time) {
    DisputeActive(r) && !DisputeActive(s) ==>
      c.OnDispute? && (c.dispute.Resolution? || (c.dispute.Timeout? && r.dispute.value.openedAt <= at - 15 * DAY))
  }

  /** A raffle is cancelled only by its seller while active, or by the expiry task with too few tickets sold. */
  ghost predicate CancellationExplained(r: Raffle, s: Raffle, c: Call, at: Time) {
    r.status != Cancelled && s.status == Cancelled ==>
      && r.status == Active && c.OnRaffleRow?
      && (|| (c.step.CancelledBy? && c.step.user == r.seller)
          || (c.step.Expiry? && r.deadline < at && !SoldEnough(r) && AllRefunded(s.tickets)))
  }

  /** A payout starts only by an attempt after the protection week of a confirmed delivery without dispute. */
  ghost predicate PayoutExplained(r: Raffle, s: Raffle, c: Call, at: Time) {
    !PayoutStarted(r) && PayoutStarted(s) ==>
      && c.OnPayoutRow? && c.payout.PayoutAttempt?
      && r.dispute.None? && r.delivery == Confirmed
      && r.confirmedAt.Some? && r.confirmedAt.value + PROTECTION_DAYS * DAY <= at
  }

  /** Money is released only by an attempt or a provider sync that reports completion. */
  ghost predicate ReleaseExplained(r: Raffle, s: Raffle, c: Call, at: Time) {
    s.releasedAt != r.releasedAt ==>
      && s.releasedAt == Some(at) && c.OnPayoutRow?
      && (|| (c.payout.PayoutAttempt? && c.payout.outcome.provider == PayoutCompleted)
          || (c.payout.ProviderSync? && c.payout.outcome.provider == PayoutCompleted))
  }

  ghost predicate Explained(r: Raffle, s: Raffle, c: Call, at: Time) {
    && WinnerExplained(r, s, c)
    && ConfirmationExplained(r, s, c, at)
    && DisputeExplained(r, s, c)
    && ResolutionExplained(r, s, c, at)
    && CancellationExplained(r, s, c, at)
    && PayoutExplained(r, s, c, at)
    && ReleaseExplained(r, s, c, at)
  }

  /** Same winner, dates, dispute, payout and status: nothing there needs explaining. */
  predicate Quiet(r: Raffle, s: Raffle) {
    && s.winner == r.winner && s.confirmedAt == r.confirmedAt && s.releasedAt == r.releasedAt
    && s.dispute == r.dispute && s.payout == r.payout && s.status == r.status
  }

  lemma QuietIsExplained(r: Raffle, s: Raffle, c: Call, at: Time)
    requires Quiet(r, s)
    ensures Explained(r, s, c, at)
  {
  }

  /** Row i became s, every other row stayed. */
  ghost predicate Became(d: Db, e: Db, i: nat, s: Raffle) {
    i < |d.raffles| && e.raffles == d.raffles[i := s]
  }

  /** The call named one row; that row is explained and all others are untouched. */
  ghost predicate OneExplained(d: Db, e: Db, i: nat, c: Call, at: Time) {
    || (|e.raffles| >= |d.raffles| && forall j :: 0 <= j < |d.raffles| ==> e.raffles[j] == d.raffles[j])
    || (i < |d.raffles| && exists s :: Became(d, e, i, s) && Explained(d.raffles[i], s, c, at))
  }

  lemma RowExplained(d: Db, e: Db, i: nat, s: Raffle, c: Call, at: Time)
    requires i < |d.raffles| && e.raffles == d.raffles[i := s] && Explained(d.raffles[i], s, c, at)
    ensures OneExplained(d, e, i, c, at)
  {
    assert Became(d, e, i, s);
  }

  lemma CatalogueExplained(d: Db, i: nat, c: CatalogueCall, at: Time)
    ensures OneExplained(d, ApplyCatalogue(d, i, c, at), i, OnCatalogue(i, c), at)
  {
    var e := ApplyCatalogue(d, i, c, at);
    if i < |d.raffles| && (c.NewPrice? || c.NewDeadline? || c.Visibility?) && e != d {
      var s := e.raffles[i];
      QuietIsExplained(d.raffles[i], s, OnCatalogue(i, c), at);
      RowExplained(d, e, i, s, OnCatalogue(i, c), at);
    }
  }

  lemma DrawnExplained(rate: real, r: Raffle, pick: nat, c: Call, at: Time)
    requires RowFacts(rate, r) && Draw(r, pick, at).Success?
    requires c.OnRaffleRow? && (c.step.Completion? || c.step.AdminDraw? || c.step.Expiry?)
    ensures Explained(r, Draw(r, pick, at).value, c, at)
    ensures Explained(r, WithPayout(rate, Draw(r, pick, at).value), c, at)
  {
    assert r.tickets[pick].buyer == Draw(r, pick, at).value.winner.value;
  }

  lemma DrawExplained(d: Db, i: nat, pick: nat, at: Time, fault: Fault, c: Call)
    requires Inv(d) && c.OnRaffleRow? && (c.step.Completion? || c.step.AdminDraw? || c.step.Expiry?)
    ensures OneExplained(d, DrawIfEligible(d, i, pick, at, fault).db, i, c, at)
    ensures OneExplained(d, SelectWinner(d, i, pick, at, fault).db, i, c, at)
  {
    if i < |d.raffles| && Draw(d.raffles[i], pick, at).Success? {
      RowOf(d, i);
      DrawnExplained(d.config.feeRate, d.raffles[i], pick, c, at);
      var r := Draw(d.raffles[i], pick, at).value;
      RowExplained(d, SetRaffle(d, i, r), i, r, c, at);
      RowExplained(d, SetRaffle(d, i, WithPayout(d.config.feeRate, r)), i, WithPayout(d.config.feeRate, r), c, at);
    }
  }

  lemma CompletionExplained(d: Db, i: nat, pick: nat, at: Time, fault: Fault)
    requires Inv(d)
    ensures OneExplained(d, CheckCompletion(d, i, pick, at, fault).db, i, OnRaffleRow(i, Completion(pick, fault)), at)
  {
    if i < |d.raffles| && PaidCount(d.raffles[i].tickets) >= d.raffles[i].total {
      var r := d.raffles[i];
      var full := if r.status == Active then r.(status := SoldOut) else r;
      RowOf(d, i);
      FullFacts(d.config.feeRate, r);
      CompletionEnds(d, i, pick, at, fault);
      CompletedExplained(d.config.feeRate, r, full, pick, OnRaffleRow(i, Completion(pick, fault)), at);
      var e := CheckCompletion(d, i, pick, at, fault).db;
      RowExplained(d, e, i, e.raffles[i], OnRaffleRow(i, Completion(pick, fault)), at);
    }
  }

  lemma FullFacts(rate: real, r: Raffle)
    requires RowFacts(rate, r)
    ensures RowFacts(rate, if r.status == Active then r.(status := SoldOut) else r)
  {
  }

  lemma CompletionEnds(d: Db, i: nat, pick: nat, at: Time, fault: Fault)
    requires i < |d.raffles| && PaidCount(d.raffles[i].tickets) >= d.raffles[i].total
    ensures var r := d.raffles[i];
            var full := if r.status == Active then r.(status := SoldOut) else r;
            var e := CheckCompletion(d, i, pick, at, fault).db;
            && e.raffles == d.raffles[i := e.raffles[i]]
            && (|| e.raffles[i] == full
                || (Draw(full, pick, at).Success?
                    && (|| e.raffles[i] == Draw(full, pick, at).value
                        || e.raffles[i] == WithPayout(d.config.feeRate, Draw(full, pick, at).value))))
  {
  }

  lemma CompletedExplained(rate: real, r: Raffle, full: Raffle, pick: nat, c: Call, at: Time)
    requires RowFacts(rate, full) && (full == r || (r.status == Active && full == r.(status := SoldOut)))
    requires c.OnRaffleRow? && c.step.Completion?
    ensures Explained(r, full, c, at)
    ensures Draw(full, pick, at).Success? ==>
              && Explained(r, Draw(full, pick, at).value, c, at)
              && Explained(r, WithPayout(rate, Draw(full, pick, at).value), c, at)
  {
    if Draw(full, pick, at).Success? {
      DrawnExplained(rate, full, pick, c, at);
    }
  }

  lemma ExpiryExplained(d: Db, i: nat, pick: nat, at: Time, fault: Fault)
    requires Inv(d)
    ensures OneExplained(d, ProcessExpired(d, i, pick, at, fault).db, i, OnRaffleRow(i, Expiry(pick, fault)), at)
  {
    var c := OnRaffleRow(i, Expiry(pick, fault));
    if i < |d.raffles| && Expires(d.raffles[i], at) {
      var r := d.raffles[i];
      if r.status == SoldOut || SoldEnough(r) {
        DrawExplained(d, i, pick, at, fault, c);
      } else if CancelAndRefund(d, i).error.None? {
        RefundKeeps.CancelResult(d, i);
        RefundKeeps.MarkAllSums(r.tickets, AllPaid(r.tickets), 0);
        RowExplained(d, CancelAndRefund(d, i).db, i, RefundKeeps.CancelledRow(r), c, at);
      }
    }
  }

  lemma PurchaseExplained(d: Db, i: nat, c: RaffleCall, at: Time)
    requires c.Purchase?
    ensures OneExplained(d, ApplyRaffle(d, i, c, at), i, OnRaffleRow(i, c), at)
  {
    if i < |d.raffles| && DrawsFit(d.raffles[i], c.buyer, c.request) && Buy(d, i, c.buyer, c.request, c.bonus).error.None? {
      BuyResult(d, i, c.buyer, c.request, c.bonus);
      var e := Buy(d, i, c.buyer, c.request, c.bonus).db;
      QuietIsExplained(d.raffles[i], e.raffles[i], OnRaffleRow(i, c), at);
      RowExplained(d, e, i, e.raffles[i], OnRaffleRow(i, c), at);
    }
  }

  lemma DeliveryExplained(d: Db, i: nat, c: RaffleCall, at: Time)
    requires Inv(d) && (c.WinnerRejected? || c.CancelledBy? || c.ShippedBy? || c.ConfirmedBy?)
    ensures OneExplained(d, ApplyRaffle(d, i, c, at), i, OnRaffleRow(i, c), at)
  {
    var e := ApplyRaffle(d, i, c, at);
    if i < |d.raffles| && e != d {
      RowOf(d, i);
      DeliveryRow(d, i, c, at);
      RowExplained(d, e, i, e.raffles[i], OnRaffleRow(i, c), at);
    }
  }

  lemma DeliveryRow(d: Db, i: nat, c: RaffleCall, at: Time)
    requires i < |d.raffles| && RowFacts(d.config.feeRate, d.raffles[i])
    requires c.WinnerRejected? || c.CancelledBy? || c.ShippedBy? || c.ConfirmedBy?
    ensures var e := ApplyRaffle(d, i, c, at);
            && |e.raffles| == |d.raffles|
            && e.raffles == d.raffles[i := e.raffles[i]]
            && Explained(d.raffles[i], e.raffles[i], OnRaffleRow(i, c), at)
  {
  }

  lemma RaffleExplained(d: Db, i: nat, c: RaffleCall, at: Time)
    requires Inv(d)
    ensures OneExplained(d, ApplyRaffle(d, i, c, at), i, OnRaffleRow(i, c), at)
  {
    match c
    case Purchase(_, _, _) => PurchaseExplained(d, i, c, at);
    case Completion(pick, fault) => CompletionExplained(d, i, pick, at, fault);
    case AdminDraw(pick, fault) => DrawExplained(d, i, pick, at, fault, OnRaffleRow(i, c));
    case Expiry(pick, fault) => ExpiryExplained(d, i, pick, at, fault);
    case _ => DeliveryExplained(d, i, c, at);
  }

  // ----- Disputes -----

  lemma ClosedExplained(rate: real, r: Raffle, ids: set<nat>, decision: Decision, split: Split, c: Call, at: Time)
    requires RowFacts(rate, r) && DisputeActive(r)
    requires c.OnDispute? && (c.dispute.Resolution? || (c.dispute.Timeout? && r.dispute.value.openedAt <= at - 15 * DAY))
    ensures Explained(r, CloseDispute(r, decision, split, at), c, at)
    ensures Explained(r, RefundKeeps.RefundedRow(r, ids, decision, split, at), c, at)
  {
  }

  lemma ResolveExplained(d: Db, i: nat, decision: Decision, refund: Option<real>, seller: Option<real>, c: Call, at: Time)
    requires Inv(d) && i < |d.raffles| && DisputeActive(d.raffles[i])
    requires c.OnDispute?
    requires c.dispute.Resolution? || (c.dispute.Timeout? && d.raffles[i].dispute.value.openedAt <= at - 15 * DAY)
    ensures OneExplained(d, Resolve(d, i, decision, refund, seller, at).db, i, c, at)
  {
    RowOf(d, i);
    var split, ids, books := ResolveEnds(d, i, decision, refund, seller, at);
    var r := d.raffles[i];
    ClosedExplained(d.config.feeRate, r, ids, decision, split, c, at);
    var plain := CloseDispute(r, decision, split, at);
    var refunded := RefundKeeps.RefundedRow(r, ids, decision, split, at);
    RowExplained(d, SetRaffle(d, i, plain), i, plain, c, at);
    RowExplained(d, SetRaffle(d, i, refunded).(books := books, txs := d.txs), i, refunded, c, at);
  }

  lemma OpenExplained(d: Db, i: nat, c: DisputeCall, at: Time)
    requires Inv(d) && (c.OpenedBy? || c.AnsweredBy? || c.Escalation?)
    ensures OneExplained(d, ApplyDispute(d, i, c, at), i, OnDispute(i, c), at)
  {
    var e := ApplyDispute(d, i, c, at);
    if i < |d.raffles| && e != d {
      RowOf(d, i);
      EscalationNeverFires(d, i, at);
      RowExplained(d, e, i, e.raffles[i], OnDispute(i, c), at);
    }
  }

  lemma DisputeCallExplained(d: Db, i: nat, c: DisputeCall, at: Time)
    requires Inv(d)
    ensures OneExplained(d, ApplyDispute(d, i, c, at), i, OnDispute(i, c), at)
  {
    match c
    case Resolution(decision, refund, seller) =>
      if i < |d.raffles| && DisputeActive(d.raffles[i]) {
        ResolveExplained(d, i, decision, refund, seller, OnDispute(i, c), at);
      }
    case Timeout =>
      if i < |d.raffles| && TimesOut(d.raffles[i], at) {
        var paid := PaidBy(d.raffles[i].tickets, d.raffles[i].dispute.value.reporter);
        ResolveExplained(d, i, ForBuyer, Some(paid as real), Some(0.0), OnDispute(i, c), at);
      }
    case _ => OpenExplained(d, i, c, at);
  }

  // ----- Payouts -----

  lemma AttemptRowsExplained(rate: real, r: Raffle, c: Call, at: Time)
    requires RowFacts(rate, r) && Attemptable(r, at) && c.OnPayoutRow? && c.payout.PayoutAttempt?
    ensures var under := PayoutAccepted(PayoutSet(r, Processing));
            && Explained(r, PayoutSet(r, Failed), c, at)
            && Explained(r, under, c, at)
            && Explained(r, PayoutSet(under, Failed), c, at)
            && (c.payout.outcome.provider == PayoutCompleted ==> Explained(r, PayoutDone(under, at), c, at))
  {
  }

  /** A payout is completed in the same call only when the provider reported completion. */
  lemma CompletionReported(d: Db, i: nat, at: Time, outcome: Outcome)
    requires i < |d.raffles| && Attemptable(d.raffles[i], at) && outcome.provider != PayoutCompleted
    ensures var start := SetRaffle(d, i, PayoutSet(d.raffles[i], Processing));
            var end := ProcessPayout(d, i, at, outcome).db;
            || end == FailPayout(start, i)
            || (AcceptedDb(d, i).Success? &&
                (end == AcceptedDb(d, i).value || end == FailPayout(AcceptedDb(d, i).value, i)))
  {
  }

  lemma AttemptExplained(d: Db, i: nat, at: Time, outcome: Outcome)
    requires Inv(d)
    ensures OneExplained(d, ProcessPayout(d, i, at, outcome).db, i, OnPayoutRow(i, PayoutAttempt(outcome)), at)
  {
    var c := OnPayoutRow(i, PayoutAttempt(outcome));
    if i < |d.raffles| && Attemptable(d.raffles[i], at) {
      RowOf(d, i);
      var r := d.raffles[i];
      AttemptRowsExplained(d.config.feeRate, r, c, at);
      RowExplained(d, SetRaffle(d, i, PayoutSet(r, Failed)), i, PayoutSet(r, Failed), c, at);
      AttemptCases(d, i, at, outcome);
      if outcome.provider != PayoutCompleted {
        FailBeforeDebit(d, i);
        CompletionReported(d, i, at, outcome);
      }
      if AcceptedDb(d, i).Success? {
        AcceptedExplained(d, i, c, at);
      }
    }
  }

  lemma AcceptedExplained(d: Db, i: nat, c: Call, at: Time)
    requires Inv(d) && i < |d.raffles| && Attemptable(d.raffles[i], at) && AcceptedDb(d, i).Success?
    requires c.OnPayoutRow? && c.payout.PayoutAttempt?
    ensures var a := AcceptedDb(d, i).value;
            && OneExplained(d, a, i, c, at)
            && OneExplained(d, FailPayout(a, i), i, c, at)
            && (c.payout.outcome.provider == PayoutCompleted ==> OneExplained(d, CompletePayout(a, i, at), i, c, at))
  {
    RowOf(d, i);
    var r := d.raffles[i];
    var a := AcceptedDb(d, i).value;
    var under := PayoutAccepted(PayoutSet(r, Processing));
    AttemptRowsExplained(d.config.feeRate, r, c, at);
    AcceptedRows(d, i, at);
    RowExplained(d, a, i, under, c, at);
    RowExplained(d, FailPayout(a, i), i, PayoutSet(under, Failed), c, at);
    if c.payout.outcome.provider == PayoutCompleted {
      RowExplained(d, CompletePayout(a, i, at), i, PayoutDone(under, at), c, at);
    }
  }

  lemma SyncExplained(d: Db, i: nat, at: Time, outcome: Outcome)
    requires Inv(d)
    ensures OneExplained(d, SyncPayout(d, i, at, outcome).db, i, OnPayoutRow(i, ProviderSync(outcome)), at)
  {
    var c := OnPayoutRow(i, ProviderSync(outcome));
    var e := SyncPayout(d, i, at, outcome).db;
    if i < |d.raffles| && e != d {
      RowOf(d, i);
      RowExplained(d, e, i, e.raffles[i], c, at);
    }
  }

  lemma ReleaseCallExplained(d: Db, i: nat, at: Time, outcome: Outcome)
    requires Inv(d)
    ensures OneExplained(d, AutoRelease(d, i, at, outcome).db, i, OnPayoutRow(i, WeeklyRelease(outcome)), at)
  {
    var c := OnPayoutRow(i, WeeklyRelease(outcome));
    if i < |d.raffles| && AutoReleases(d.raffles[i], at) {
      RowOf(d, i);
      AutoReleaseResult(d, i, at, outcome);
      var s := Scheduled(WithPayout(d.config.feeRate, AutoConfirm(d.raffles[i], at)), at);
      ReleasedRowExplained(d.config.feeRate, d.raffles[i], c, at);
      RowExplained(d, SetRaffle(d, i, s), i, s, c, at);
    }
  }

  lemma ReleasedRowExplained(rate: real, r: Raffle, c: Call, at: Time)
    requires RowFacts(rate, r) && AutoReleases(r, at) && c.OnPayoutRow? && c.payout.WeeklyRelease?
    ensures Explained(r, Scheduled(WithPayout(rate, AutoConfirm(r, at)), at), c, at)
  {
  }

  lemma PayoutCallExplained(d: Db, i: nat, c: PayoutCall, at: Time)
    requires Inv(d)
    ensures OneExplained(d, ApplyPayout(d, i, c, at), i, OnPayoutRow(i, c), at)
  {
    match c
    case PayoutAttempt(outcome) => AttemptExplained(d, i, at, outcome);
    case WeeklyRelease(outcome) => ReleaseCallExplained(d, i, at, outcome);
    case ProviderSync(outcome) => SyncExplained(d, i, at, outcome);
  }

  lemma TopUpsTouchNoRaffle(d: Db, c: TopUpCall, at: Time)
    ensures ApplyTopUp(d, c, at).raffles == d.raffles
  {
  }

  // ----- Every call -----

  lemma SettledExplanation(d: Db, e: Db, i: nat, c: Call, at: Time, j: nat)
    requires OneExplained(d, e, i, c, at) && j < |d.raffles|
    ensures j < |e.raffles| && Explained(d.raffles[j], e.raffles[j], c, at) && (j != i ==> e.raffles[j] == d.raffles[j])
  {
    QuietIsExplained(d.raffles[j], d.raffles[j], c, at);
  }

  /** Whatever a call changes about a raffle, it was entitled to; and it never touches another raffle. */
  lemma EveryChangeExplained(d: Db, e: Event, j: nat)
    requires Inv(d) && j < |d.raffles|
    ensures j < |Apply(d, e).raffles|
    ensures Explained(d.raffles[j], Apply(d, e).raffles[j], e.call, e.at)
    ensures e.call.OnTopUp? || e.call.raffle != j ==> Apply(d, e).raffles[j] == d.raffles[j]
  {
    match e.call
    case OnCatalogue(i, c) => CatalogueExplained(d, i, c, e.at); SettledExplanation(d, Apply(d, e), i, e.call, e.at, j);
    case OnRaffleRow(i, c) => RaffleExplained(d, i, c, e.at); SettledExplanation(d, Apply(d, e), i, e.call, e.at, j);
    case OnDispute(i, c) => DisputeCallExplained(d, i, c, e.at); SettledExplanation(d, Apply(d, e), i, e.call, e.at, j);
    case OnPayoutRow(i, c) => PayoutCallExplained(d, i, c, e.at); SettledExplanation(d, Apply(d, e), i, e.call, e.at, j);
    case OnTopUp(c) => TopUpsTouchNoRaffle(d, c, e.at); QuietIsExplained(d.raffles[j], d.raffles[j], e.call, e.at);
  }
}
