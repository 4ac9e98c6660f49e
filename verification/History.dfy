/**
 How a raffle row and a top-up session may develop: what, once true of them, stays true. Every call is
 shown to respect this order, and the order is transitive, so it holds between any two moments of a run.
 */
module History {
  import opened Market
  import opened PayoutKeeps
  import opened Raffles
  import opened Tickets
  import opened TopUps
  import opened Wrappers

  /** Pending, then under way, then settled one way or the other; never back. */
  function Progress(status: PayoutStatus): nat {
    match status
    case Pending => 0
    case Processing => 1
    case Completed => 2
    case Failed => 2
  }

  predicate PayoutLater(a: Payout, b: Payout) {
    && a.net == b.net
    && Progress(a.status) <= Progress(b.status)
    && (Progress(a.status) == Progress(b.status) ==> a.status == b.status)
    && (a.accepted ==> b.accepted)
  }

  predicate Fixed<T(==)>(a: Option<T>, b: Option<T>) {
    a.Some? ==> b == a
  }

  ghost predicate TicketsLater(a: seq<Ticket>, b: seq<Ticket>) {
    && |a| <= |b|
    && forall k :: 0 <= k < |a| ==> Refundable(a[k], b[k])
  }

  /** A sold ticket keeps its number, its buyer and its price; a refund is final. */
  predicate Refundable(a: Ticket, b: Ticket) {
    a == b || b == a.(refunded := true)
  }

  ghost predicate Later(a: Raffle, b: Raffle) {
    && a.seller == b.seller && a.total == b.total
    && Fixed(a.drawResult, b.drawResult)
    && Fixed(a.confirmedAt, b.confirmedAt)
    && Fixed(a.releasedAt, b.releasedAt)
    && (a.delivery == Confirmed ==> b.delivery == Confirmed)
    && (a.status == Finalised ==> b.status == Finalised)
    && (a.status == Cancelled ==> b.status == Cancelled || b.status == Finalised)
    && (a.drawResult.Some? && a.winner.None? ==> b.winner.None?)
    && (a.dispute.Some? ==> b.dispute.Some? && b.dispute.value.reporter == a.dispute.value.reporter)
    && (a.dispute.Some? && a.dispute.value.status.Resolved? ==> b.dispute == a.dispute)
    && (a.payout.Some? ==> b.payout.Some? && PayoutLater(a.payout.value, b.payout.value))
    && (a.confirmedAt.Some? && a.payout.Some? ==> b.payout.value.scheduledFor == a.payout.value.scheduledFor)
    && TicketsLater(a.tickets, b.tickets)
  }

  /** Later, and a payout that got under way meanwhile did so after its protection week. */
  ghost predicate Follows(a: Raffle, b: Raffle, now: Time) {
    Later(a, b) && (Ripe(a, now) ==> Ripe(b, now))
  }

  /** Credited at most once, refunded at most once, and approved only while unprocessed. */
  ghost predicate SessionLater(a: Session, b: Session) {
    && a.user == b.user && a.provider == b.provider && a.reference == b.reference && a.amount == b.amount
    && (a.processedAt.Some? ==> b.processedAt.Some? && b.credited == a.credited)
    && (a.processedAt.Some? && a.status != Approved ==> b.status != Approved)
    && a.refunded <= b.refunded
    && (a.refunded > 0 ==> b.refunded == a.refunded)
  }

  lemma TicketsTwice(a: seq<Ticket>, b: seq<Ticket>, c: seq<Ticket>)
    requires TicketsLater(a, b) && TicketsLater(b, c)
    ensures TicketsLater(a, c)
  {
    forall k | 0 <= k < |a| ensures Refundable(a[k], c[k]) {
      assert Refundable(a[k], b[k]) && Refundable(b[k], c[k]);
    }
  }

  lemma LaterTwice(a: Raffle, b: Raffle, c: Raffle)
    requires Later(a, b) && Later(b, c)
    ensures Later(a, c)
  {
    TicketsTwice(a.tickets, b.tickets, c.tickets);
  }

  // ----- The stored tables -----

  ghost predicate RowsLater(a: seq<Raffle>, b: seq<Raffle>) {
    && |a| <= |b|
    && forall i :: 0 <= i < |a| ==> Later(a[i], b[i])
  }

  ghost predicate SessionsLater(a: seq<Session>, b: seq<Session>) {
    && |a| <= |b|
    && forall k :: 0 <= k < |a| ==> SessionLater(a[k], b[k])
  }

  ghost predicate DbLater(a: Db, b: Db) {
    && a.config == b.config
    && |a.books.wallets| <= |b.books.wallets|
    && RowsLater(a.raffles, b.raffles)
    && SessionsLater(a.sessions, b.sessions)
    && a.providerEvents <= b.providerEvents
  }

  /** What one call at time now does: rows and sessions only move forward, and payouts under way stay ripe. */
  ghost predicate DbFollows(a: Db, b: Db, now: Time) {
    && DbLater(a, b)
    && (PayoutsRipe(a, now) ==> PayoutsRipe(b, now))
  }

  lemma DbLaterTwice(a: Db, b: Db, c: Db)
    requires DbLater(a, b) && DbLater(b, c)
    ensures DbLater(a, c)
  {
    forall i | 0 <= i < |a.raffles| ensures Later(a.raffles[i], c.raffles[i]) {
      LaterTwice(a.raffles[i], b.raffles[i], c.raffles[i]);
    }
    forall k | 0 <= k < |a.sessions| ensures SessionLater(a.sessions[k], c.sessions[k]) {
      assert SessionLater(a.sessions[k], b.sessions[k]) && SessionLater(b.sessions[k], c.sessions[k]);
    }
  }

  lemma DbFollowsTwice(a: Db, b: Db, c: Db, now: Time)
    requires DbFollows(a, b, now) && DbFollows(b, c, now)
    ensures DbFollows(a, c, now)
  {
    DbLaterTwice(a, b, c);
  }

  lemma Unchanged(d: Db, now: Time)
    ensures DbFollows(d, d, now)
  {
  }

  /** A call that touched one raffle row, and no top-up session. */
  lemma OneRow(d: Db, e: Db, i: nat, r: Raffle, now: Time)
    requires i < |d.raffles| && Follows(d.raffles[i], r, now)
    requires e.config == d.config && |e.books.wallets| == |d.books.wallets| && e.sessions == d.sessions
    requires e.providerEvents == d.providerEvents
    requires e.raffles == d.raffles[i := r]
    ensures DbFollows(d, e, now)
  {
    if PayoutsRipe(d, now) {
      assert Ripe(d.raffles[i], now);
    }
  }

  lemma OneSession(d: Db, e: Db, k: nat, s: Session, now: Time)
    requires k < |d.sessions| && SessionLater(d.sessions[k], s)
    requires e.config == d.config && |e.books.wallets| == |d.books.wallets| && e.raffles == d.raffles
    requires d.providerEvents <= e.providerEvents
    requires e.sessions == d.sessions[k := s]
    ensures DbFollows(d, e, now)
  {
  }

  lemma NewRow(d: Db, r: Raffle, now: Time)
    requires r.payout.None?
    ensures DbFollows(d, d.(raffles := d.raffles + [r]), now)
  {
  }

  /** A step that only replaces one raffle row, or is rejected. */
  lemma RowStepFollows(d: Db, i: nat, result: Result<Raffle, Rejection>, now: Time)
    requires i < |d.raffles| && (result.Success? ==> Follows(d.raffles[i], result.value, now))
    ensures DbFollows(d, RowStep(d, i, result).db, now)
  {
    if result.Success? {
      OneRow(d, RowStep(d, i, result).db, i, result.value, now);
    } else {
      Unchanged(d, now);
    }
  }
}
