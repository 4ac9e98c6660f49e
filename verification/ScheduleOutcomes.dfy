/**
 From the confirmed delivery to the payment: the payout of a confirmed raffle is dated a week later, the date
 stays, and the first tick from then on starts it. When the dating fails, no tick ever does.
 */
module ScheduleOutcomes {
  import opened DueTick
  import opened LifecycleKeeps
  import opened Market
  import opened MarketInvariant
  import opened Raffles
  import opened Runs
  import opened StepsFollow
  import opened Theorems
  import opened Wrappers

  /** Confirmed at this moment, and the payout waits for its date, seven days later. */
  predicate DatedAWeekLater(r: Raffle, at: Time) {
    && r.delivery == Confirmed && r.confirmedAt == Some(at)
    && r.payout.Some? && r.payout.value.status == Pending
    && r.payout.value.scheduledFor == Some(at + 7 * DAY)
  }

  /** Only the winner confirms, only after shipping; then the delivery is confirmed now whatever becomes of the payout row. */
  lemma ConfirmationExactly(d: Db, i: nat, user: nat, now: Time, fault: Fault)
    requires Inv(d) && i < |d.raffles|
    ensures var r := d.raffles[i];
            var a := ConfirmStep(d, i, user, now, fault);
            && (a.error.None? <==> r.winner == Some(user) && r.delivery == Shipped)
            && (a.error.Some? ==> a.db == d)
            && (a.error.None? ==>
                  && |a.db.raffles| == |d.raffles|
                  && var s := a.db.raffles[i];
                  && s == r.(delivery := Confirmed, confirmedAt := Some(now), status := InDelivery, payout := s.payout)
                  && a.db.books == d.books
                  && (fault == EarlyFault ==> s.payout == r.payout)
                  && (fault == LateFault && r.payout.Some? ==> s.payout == r.payout)
                  && (fault == NoFault ==> DatedAWeekLater(s, now)))
  {
    RowOf(d, i);
  }

  lemma ConfirmationGoodStep(d: Db, clock: Time, i: nat, user: nat, now: Time, fault: Fault)
    requires Healthy(d, clock) && clock <= now
    ensures Healthy(ConfirmStep(d, i, user, now, fault).db, now)
  {
    RipeLater(d, clock, now);
    ConfirmStepKeeps(d, i, user, now, fault);
    ConfirmFollows(d, i, user, now, fault);
  }

  /** The date of a confirmed payout stays, whatever else happens, and no dispute can come in between. */
  lemma DateStays(d: Db, clock: Time, more: seq<Event>, i: nat)
    requires Healthy(d, clock) && Chronological(clock, more) && i < |d.raffles|
    requires d.raffles[i].confirmedAt.Some? && d.raffles[i].payout.Some?
    ensures var e := Run(d, more);
            && Inv(e) && i < |e.raffles| && e.raffles[i].payout.Some?
            && e.raffles[i].payout.value.scheduledFor == d.raffles[i].payout.value.scheduledFor
            && e.raffles[i].confirmedAt == d.raffles[i].confirmedAt
            && e.raffles[i].delivery == Confirmed && e.raffles[i].dispute.None?
  {
    RowThen(d, clock, more, i);
  }

  lemma ReadyWhenDue(r: Raffle, at: Time, now: Time)
    requires r.delivery == Confirmed && r.confirmedAt == Some(at) && r.dispute.None? && r.payout.Some?
    requires r.payout.value.scheduledFor == Some(at + 7 * DAY)
    ensures !PayoutStarted(r) && at + 7 * DAY <= now ==> Ready(r, now)
    ensures now < at + 7 * DAY ==> !Due(r, now)
  {
  }

  /**
   A delivery confirmed without a fault is paid out on time: whatever happens in between, a tick at or after
   seven days has started the payout, and a tick before leaves the row exactly as it is.
   */
  lemma ConfirmedIsPaidOnTime(d: Db, clock: Time, i: nat, user: nat, at: Time, more: seq<Event>,
                              now: Time, attempts: seq<Attempt>)
    requires Healthy(d, clock) && clock <= at && i < |d.raffles|
    requires ConfirmStep(d, i, user, at, NoFault).error.None?
    requires Chronological(at, more)
    requires TickOf(Run(ConfirmStep(d, i, user, at, NoFault).db, more), now, attempts)
    ensures var e := Run(ConfirmStep(d, i, user, at, NoFault).db, more);
            && i < |e.raffles| == |Tick(e, attempts).raffles|
            && (at + 7 * DAY <= now ==> PayoutStarted(Tick(e, attempts).raffles[i]))
            && (now < at + 7 * DAY ==> Tick(e, attempts).raffles[i] == e.raffles[i])
  {
    ConfirmationExactly(d, i, user, at, NoFault);
    ConfirmationGoodStep(d, clock, i, user, at, NoFault);
    var confirmed := ConfirmStep(d, i, user, at, NoFault).db;
    DateStays(confirmed, at, more, i);
    TickOnTime(Run(confirmed, more), i, at, now, attempts);
  }

  lemma TickOnTime(e: Db, i: nat, at: Time, now: Time, attempts: seq<Attempt>)
    requires Inv(e) && i < |e.raffles| && TickOf(e, now, attempts)
    requires var r := e.raffles[i];
             && r.delivery == Confirmed && r.confirmedAt == Some(at) && r.dispute.None? && r.payout.Some?
             && r.payout.value.scheduledFor == Some(at + 7 * DAY)
    ensures |Tick(e, attempts).raffles| == |e.raffles|
    ensures at + 7 * DAY <= now ==> PayoutStarted(Tick(e, attempts).raffles[i])
    ensures now < at + 7 * DAY ==> Tick(e, attempts).raffles[i] == e.raffles[i]
  {
    ReadyWhenDue(e.raffles[i], at, now);
    TickLeavesNoneBehind(e, now, attempts, i);
  }

  /** When dating the payout failed, it has no date for ever, and no tick ever touches the raffle. */
  lemma UndatedIsNeverTicked(d: Db, clock: Time, i: nat, user: nat, at: Time, fault: Fault, more: seq<Event>,
                             now: Time, attempts: seq<Attempt>)
    requires Healthy(d, clock) && clock <= at && i < |d.raffles| && fault != NoFault
    requires d.raffles[i].payout.Some? && d.raffles[i].payout.value.scheduledFor.None?
    requires ConfirmStep(d, i, user, at, fault).error.None?
    requires Chronological(at, more)
    requires TickOf(Run(ConfirmStep(d, i, user, at, fault).db, more), now, attempts)
    ensures var e := Run(ConfirmStep(d, i, user, at, fault).db, more);
            && i < |e.raffles| == |Tick(e, attempts).raffles|
            && Tick(e, attempts).raffles[i] == e.raffles[i]
  {
    ConfirmationExactly(d, i, user, at, fault);
    ConfirmationGoodStep(d, clock, i, user, at, fault);
    var confirmed := ConfirmStep(d, i, user, at, fault).db;
    DateStays(confirmed, at, more, i);
    TickLeavesNoneBehind(Run(confirmed, more), now, attempts, i);
  }
}
