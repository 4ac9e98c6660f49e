/** What one round of each periodic task does to the whole table, whatever happens to single raffles. */
module TaskRounds {
  import opened DisputeMath
  import opened DisputesService
  import opened ExactConditions
  import opened LifecycleKeeps
  import opened Market
  import opened MarketInvariant
  import opened PayoutKeeps
  import opened RaffleInvariant
  import opened Raffles
  import opened RafflesService
  import opened RefundKeeps
  import opened Rounds
  import opened Tickets
  import opened TicketsService

  // ----- The weekly release -----

  function Released(rate: real, r: Raffle, now: Time): Raffle {
    if AutoReleases(r, now) then Scheduled(WithPayout(rate, AutoConfirm(r, now)), now) else r
  }

  ghost predicate RoundReleased(d: Db, e: Db, n: nat, now: Time) {
    && e.books == d.books && e.txs == d.txs
    && e.config == d.config
    && |e.raffles| == |d.raffles|
    && (forall i :: 0 <= i < n && i < |d.raffles| ==> e.raffles[i] == Released(d.config.feeRate, d.raffles[i], now))
    && (forall i :: n <= i < |d.raffles| ==> e.raffles[i] == d.raffles[i])
  }

  /**
   A release round confirms exactly the raffles that are a week past their draw, leaves all others alone,
   and pays nobody: every payout it asks for is still inside its own protection week.
   */
  lemma ReleaseRoundPaysNobody(d: Db, n: nat, now: Time, w: World)
    requires Inv(d) && n <= |d.raffles|
    ensures ReleaseDone(d, ReleaseRound(d, n, now, w), n, now)
  {
    var good := (e: Db, k: nat) => k <= n && ReleaseDone(d, e, k, now);
    forall e: Db, k: nat | k < n && good(e, k) ensures good(ReleaseListed(now, w)(e, k), k + 1) {
      ReleaseStep(d, e, ReleaseListed(now, w)(e, k), k + 1, now, w.outcome(k));
    }
    FoldInduction(d, n, ReleaseListed(now, w), good);
  }

  ghost predicate ReleaseDone(d: Db, e: Db, n: nat, now: Time) {
    Inv(e) && RoundReleased(d, e, n, now)
  }

  lemma ReleaseStep(d: Db, mid: Db, next: Db, n: nat, now: Time, outcome: Outcome)
    requires 0 < n <= |d.raffles| && ReleaseDone(d, mid, n - 1, now)
    requires next == AutoRelease(mid, n - 1, now, outcome).db
    ensures ReleaseDone(d, next, n, now)
  {
    OneReleased(mid, next, n - 1, now, outcome);
    OneMoreReleased(d, mid, next, n, now);
  }

  lemma OneReleased(d: Db, next: Db, i: nat, now: Time, outcome: Outcome)
    requires Inv(d) && i < |d.raffles| && next == AutoRelease(d, i, now, outcome).db
    ensures Inv(next) && next == SetRaffle(d, i, Released(d.config.feeRate, d.raffles[i], now))
  {
    AutoReleaseKeeps(d, i, now, outcome);
    ReleasedRow(d, i, now, outcome);
  }

  lemma OneMoreReleased(d: Db, mid: Db, next: Db, n: nat, now: Time)
    requires 0 < n <= |d.raffles| && RoundReleased(d, mid, n - 1, now)
    requires next == SetRaffle(mid, n - 1, Released(mid.config.feeRate, mid.raffles[n - 1], now))
    ensures RoundReleased(d, next, n, now)
  {
  }

  lemma ReleasedRow(d: Db, i: nat, now: Time, outcome: Outcome)
    requires Inv(d) && i < |d.raffles|
    ensures AutoRelease(d, i, now, outcome).db == SetRaffle(d, i, Released(d.config.feeRate, d.raffles[i], now))
  {
    if AutoReleases(d.raffles[i], now) {
      AutoReleaseResult(d, i, now, outcome);
    } else {
      assert d.raffles[i := d.raffles[i]] == d.raffles;
    }
  }

  // ----- The daily dispute refunds -----

  /** Resolved for the buyer with everything the buyer had paid, and no paid ticket left; or untouched. */
  ghost predicate RefundedOrLeft(before: Raffle, after: Raffle) {
    after == before
    || (before.dispute.Some? && after.dispute.Some?
        && after.dispute.value.status == DisputeStatus.Resolved(ForBuyer)
        && after.dispute.value.refund == PaidBy(before.tickets, before.dispute.value.reporter)
        && ActiveCount(after.tickets, before.dispute.value.reporter) == 0)
  }

  ghost predicate RoundRefunded(d: Db, e: Db, n: nat, now: Time) {
    && |e.raffles| == |d.raffles|
    && (forall i :: 0 <= i < n && i < |d.raffles| ==> RefundedOrLeft(d.raffles[i], e.raffles[i]))
    && (forall i :: 0 <= i < |d.raffles| && (i >= n || !TimesOut(d.raffles[i], now)) ==> e.raffles[i] == d.raffles[i])
  }

  /** A round of automatic refunds settles each timed-out dispute completely or leaves it as it is, and touches no other. */
  lemma AutoRefundsAllOrNothing(d: Db, n: nat, now: Time)
    requires Inv(d) && n <= |d.raffles|
    ensures RefundsDone(d, AutoRefunds(d, n, now), n, now)
  {
    RefundsStart(d, now);
    var good := (e: Db, k: nat) => k <= n && RefundsDone(d, e, k, now);
    forall e: Db, k: nat | k < n && good(e, k) ensures good(RefundListed(d, now)(e, k), k + 1) {
      RefundsStep(d, e, RefundListed(d, now)(e, k), k + 1, now);
    }
    FoldInduction(d, n, RefundListed(d, now), good);
  }

  ghost predicate RefundsDone(d: Db, e: Db, n: nat, now: Time) {
    Inv(e) && RoundRefunded(d, e, n, now)
  }

  lemma RefundsStart(d: Db, now: Time)
    requires Inv(d)
    ensures RefundsDone(d, d, 0, now)
  {
  }

  lemma RefundsStep(d: Db, mid: Db, next: Db, n: nat, now: Time)
    requires 0 < n <= |d.raffles| && RefundsDone(d, mid, n - 1, now)
    requires next == if TimesOut(d.raffles[n - 1], now) then AutoRefundListed(mid, n - 1, now) else mid
    ensures RefundsDone(d, next, n, now)
  {
    if TimesOut(d.raffles[n - 1], now) {
      RefundStep(d, mid, next, n, now);
    } else {
      OneMoreLeft(d, mid, n, now);
    }
  }

  lemma RefundStep(d: Db, mid: Db, next: Db, n: nat, now: Time)
    requires 0 < n <= |d.raffles| && RefundsDone(d, mid, n - 1, now)
    requires TimesOut(d.raffles[n - 1], now) && next == AutoRefundListed(mid, n - 1, now)
    ensures RefundsDone(d, next, n, now)
  {
    ListedKeeps(mid, next, n - 1, now);
    OneMoreRefunded(d, mid, next, n, now);
  }

  lemma ListedKeeps(d: Db, next: Db, i: nat, now: Time)
    requires Inv(d) && i < |d.raffles| && TimesOut(d.raffles[i], now)
    requires next == AutoRefundListed(d, i, now)
    ensures Inv(next) && RowRefunded(d.raffles, next.raffles, i)
  {
    ListedIsAutoRefund(d, i, now);
    AutoRefundKeeps(d, i, now);
    TimeoutRefundsEverything(d, i, now);
    AutoRefundIsLocal(d, i, now);
  }

  ghost predicate RowRefunded(rows: seq<Raffle>, after: seq<Raffle>, i: nat) {
    && i < |rows| == |after|
    && RefundedOrLeft(rows[i], after[i])
    && forall j :: 0 <= j < |rows| && j != i ==> after[j] == rows[j]
  }

  lemma OneMoreRefunded(d: Db, mid: Db, next: Db, n: nat, now: Time)
    requires 0 < n <= |d.raffles| && RoundRefunded(d, mid, n - 1, now) && TimesOut(d.raffles[n - 1], now)
    requires RowRefunded(mid.raffles, next.raffles, n - 1)
    ensures RoundRefunded(d, next, n, now)
  {
  }

  lemma OneMoreLeft(d: Db, mid: Db, n: nat, now: Time)
    requires 0 < n <= |d.raffles| && RoundRefunded(d, mid, n - 1, now) && !TimesOut(d.raffles[n - 1], now)
    ensures RoundRefunded(d, mid, n, now)
  {
  }

  lemma ListedIsAutoRefund(d: Db, i: nat, now: Time)
    requires i < |d.raffles| && TimesOut(d.raffles[i], now)
    ensures AutoRefundListed(d, i, now) == AutoRefund(d, i, now).db
  {
  }

  lemma AutoRefundIsLocal(d: Db, i: nat, now: Time)
    ensures var e := AutoRefund(d, i, now).db;
            |e.raffles| == |d.raffles| && forall j :: 0 <= j < |d.raffles| && j != i ==> e.raffles[j] == d.raffles[j]
  {
  }

  /** The escalation round never changes a table that a run can reach. */
  lemma EscalationRoundIsIdle(d: Db, now: Time)
    requires Inv(d)
    ensures Escalated(d.raffles, now) == d.raffles
  {
    forall i | 0 <= i < |d.raffles| ensures Escalate(d.raffles[i], now) == d.raffles[i] {
      RowOf(d, i);
    }
  }

  // ----- The expiry round -----

  /** What one expired raffle becomes: drawn, cancelled with every ticket refunded, or untouched. */
  ghost predicate ExpiredInto(before: Raffle, after: Raffle, now: Time) {
    || after == before
    || (Expires(before, now) && (before.status == SoldOut || SoldEnough(before)) && after.status == Drawn && after.tickets == before.tickets)
    || (Expires(before, now) && before.status == Active && !SoldEnough(before)
        && after.status == Cancelled && AllRefunded(after.tickets))
  }

  ghost predicate RoundExpired(d: Db, e: Db, n: nat, now: Time) {
    && |e.raffles| == |d.raffles|
    && (forall i :: 0 <= i < n && i < |d.raffles| ==> ExpiredInto(d.raffles[i], e.raffles[i], now))
    && (forall i :: n <= i < |d.raffles| ==> e.raffles[i] == d.raffles[i])
  }

  lemma ExpiryRoundDrawsOrRefunds(d: Db, n: nat, now: Time, w: World)
    requires Inv(d) && n <= |d.raffles|
    ensures ExpiryDone(d, ExpiryRound(d, n, now, w), n, now)
  {
    ExpiryStarts(d, now);
    ExpirySteps(d, n, now, w);
    FoldInduction(d, n, ExpireListed(d, now, w), DoneSoFar(d, n, now));
  }

  ghost function DoneSoFar(d: Db, n: nat, now: Time): (Db, nat) -> bool {
    (e: Db, k: nat) => k <= n && ExpiryDone(d, e, k, now)
  }

  lemma ExpirySteps(d: Db, n: nat, now: Time, w: World)
    requires n <= |d.raffles|
    ensures forall e: Db, k: nat | k < n && DoneSoFar(d, n, now)(e, k) ::
              DoneSoFar(d, n, now)(ExpireListed(d, now, w)(e, k), k + 1)
  {
    forall e: Db, k: nat | k < n && DoneSoFar(d, n, now)(e, k)
      ensures DoneSoFar(d, n, now)(ExpireListed(d, now, w)(e, k), k + 1)
    {
      ExpireListedStep(d, e, k, now, w);
    }
  }

  lemma ExpiryStarts(d: Db, now: Time)
    requires Inv(d)
    ensures ExpiryDone(d, d, 0, now)
  {
  }

  lemma ExpireListedStep(d: Db, e: Db, k: nat, now: Time, w: World)
    requires k < |d.raffles| && ExpiryDone(d, e, k, now)
    ensures ExpiryDone(d, ExpireListed(d, now, w)(e, k), k + 1, now)
  {
    var pick := PickedTicket(d.raffles[k].tickets, w.random(k));
    ExpiryStep(d, e, ExpireListed(d, now, w)(e, k), k + 1, pick, now, w.fault(k));
  }

  ghost predicate ExpiryDone(d: Db, e: Db, n: nat, now: Time) {
    Inv(e) && RoundExpired(d, e, n, now)
  }

  lemma ExpiryStep(d: Db, mid: Db, next: Db, n: nat, pick: nat, now: Time, fault: Fault)
    requires 0 < n <= |d.raffles| && ExpiryDone(d, mid, n - 1, now)
    requires next == ProcessExpired(mid, n - 1, pick, now, fault).db
    ensures ExpiryDone(d, next, n, now)
  {
    OneExpired(mid, next, n - 1, pick, now, fault);
    OneMoreExpired(d, mid, next, n, now);
  }

  ghost predicate RowExpired(rows: seq<Raffle>, after: seq<Raffle>, i: nat, now: Time) {
    && i < |rows| == |after|
    && ExpiredInto(rows[i], after[i], now)
    && forall j :: 0 <= j < |rows| && j != i ==> after[j] == rows[j]
  }

  lemma OneExpired(d: Db, next: Db, i: nat, pick: nat, now: Time, fault: Fault)
    requires Inv(d) && i < |d.raffles| && next == ProcessExpired(d, i, pick, now, fault).db
    ensures Inv(next) && RowExpired(d.raffles, next.raffles, i, now)
  {
    ProcessExpiredKeeps(d, i, pick, now, fault);
    ExpiredIsLocal(d, i, pick, now, fault);
    ExpiredRow(d, i, pick, now, fault);
  }

  lemma OneMoreExpired(d: Db, mid: Db, next: Db, n: nat, now: Time)
    requires 0 < n <= |d.raffles| && RoundExpired(d, mid, n - 1, now)
    requires RowExpired(mid.raffles, next.raffles, n - 1, now)
    ensures RoundExpired(d, next, n, now)
  {
  }

  lemma ExpiredRow(d: Db, i: nat, pick: nat, now: Time, fault: Fault)
    requires Inv(d) && i < |d.raffles|
    ensures |ProcessExpired(d, i, pick, now, fault).db.raffles| == |d.raffles|
    ensures ExpiredInto(d.raffles[i], ProcessExpired(d, i, pick, now, fault).db.raffles[i], now)
  {
    ExpiredIsLocal(d, i, pick, now, fault);
    if Expires(d.raffles[i], now) && d.raffles[i].status == Active && !SoldEnough(d.raffles[i]) {
      CancellationNeedsGross(d, i);
    }
  }
}
