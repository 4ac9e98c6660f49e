/** The calls that move no money keep the market invariant. */
module LifecycleKeeps {
  import opened Market
  import opened MarketInvariant
  import opened RaffleInvariant
  import opened Raffles
  import opened Rounding
  import opened Tickets
  import opened TopUps
  import opened Wrappers

  lemma RowOf(d: Db, i: nat)
    requires Inv(d) && i < |d.raffles|
    ensures RowFacts(d.config.feeRate, d.raffles[i]) && RowKnown(d.raffles[i], |d.books.wallets|)
    ensures RowBooks(d.books.entries, d.txs, i, d.raffles[i])
  {
  }

  lemma CreateRaffleKeeps(d: Db, seller: nat, total: nat, price: nat, deadline: Time)
    requires Inv(d)
    ensures Inv(CreateRaffle(d, seller, total, price, deadline).db)
  {
    if CreateRaffle(d, seller, total, price, deadline).error.None? {
      CreatedFacts(d.config.feeRate, seller, total, price, deadline);
      AppendRow(d, Created(seller, total, price, deadline));
    }
  }

  lemma RelaunchKeeps(d: Db, i: nat, user: nat, price: nat, deadline: Time)
    requires Inv(d)
    ensures Inv(Relaunch(d, i, user, price, deadline).db)
  {
    if i < |d.raffles| {
      CreateRaffleKeeps(d, user, d.raffles[i].total, price, deadline);
    }
  }

  lemma UpdatePriceKeeps(d: Db, i: nat, user: nat, price: nat)
    requires Inv(d)
    ensures Inv(UpdatePrice(d, i, user, price).db)
  {
    if UpdatePrice(d, i, user, price).error.None? {
      RowOf(d, i);
      ReplaceRow(d, i, d.raffles[i].(price := price));
    }
  }

  lemma ExtendDeadlineKeeps(d: Db, i: nat, user: nat, deadline: Time, now: Time)
    requires Inv(d)
    ensures Inv(ExtendDeadline(d, i, user, deadline, now).db)
  {
    if ExtendDeadline(d, i, user, deadline, now).error.None? {
      RowOf(d, i);
      ReplaceRow(d, i, d.raffles[i].(deadline := deadline));
    }
  }

  lemma SetHiddenKeeps(d: Db, i: nat, hidden: bool)
    requires Inv(d)
    ensures Inv(SetHidden(d, i, hidden).db)
  {
    if i < |d.raffles| {
      RowOf(d, i);
      ReplaceRow(d, i, d.raffles[i].(hidden := hidden));
    }
  }

  /** A successful draw, with or without the payout row. */
  lemma DrawnRowKeeps(d: Db, i: nat, pick: nat, now: Time)
    requires Inv(d) && i < |d.raffles| && Draw(d.raffles[i], pick, now).Success?
    ensures var r := Draw(d.raffles[i], pick, now).value;
            Inv(SetRaffle(d, i, r)) && Inv(SetRaffle(d, i, WithPayout(d.config.feeRate, r)))
  {
    RowOf(d, i);
    var r := Draw(d.raffles[i], pick, now).value;
    DrawKeeps(d.config.feeRate, d.raffles[i], pick, now);
    WithPayoutKeeps(d.config.feeRate, r);
    ReplaceRow(d, i, r);
    ReplaceRow(d, i, WithPayout(d.config.feeRate, r));
  }

  lemma DrawIfEligibleKeeps(d: Db, i: nat, pick: nat, now: Time, fault: Fault)
    requires Inv(d)
    ensures Inv(DrawIfEligible(d, i, pick, now, fault).db)
  {
    if i < |d.raffles| && Draw(d.raffles[i], pick, now).Success? {
      DrawnRowKeeps(d, i, pick, now);
    }
  }

  lemma SelectWinnerKeeps(d: Db, i: nat, pick: nat, now: Time, fault: Fault)
    requires Inv(d)
    ensures Inv(SelectWinner(d, i, pick, now, fault).db)
  {
    if i < |d.raffles| && Draw(d.raffles[i], pick, now).Success? {
      DrawnRowKeeps(d, i, pick, now);
    }
  }

  lemma CheckCompletionKeeps(d: Db, i: nat, pick: nat, now: Time, fault: Fault)
    requires Inv(d)
    ensures Inv(CheckCompletion(d, i, pick, now, fault).db)
  {
    if i < |d.raffles| && PaidCount(d.raffles[i].tickets) >= d.raffles[i].total {
      RowOf(d, i);
      var r := d.raffles[i];
      var full := if r.status == Active then r.(status := SoldOut) else r;
      ReplaceRow(d, i, full);
      DrawIfEligibleKeeps(SetRaffle(d, i, full), i, pick, now, fault);
    }
  }

  lemma RejectWinnerStepKeeps(d: Db, i: nat)
    requires Inv(d)
    ensures Inv(RejectWinnerStep(d, i).db)
  {
    if RejectWinnerStep(d, i).error.None? {
      RowOf(d, i);
      RejectWinnerKeeps(d.config.feeRate, d.raffles[i]);
      ReplaceRow(d, i, RejectWinner(d.raffles[i]).value);
    }
  }

  lemma CancelStepKeeps(d: Db, i: nat, user: nat)
    requires Inv(d)
    ensures Inv(CancelStep(d, i, user).db)
  {
    if CancelStep(d, i, user).error.None? {
      RowOf(d, i);
      CancelKeeps(d.config.feeRate, d.raffles[i], user);
      ReplaceRow(d, i, Cancel(d.raffles[i], user).value);
    }
  }

  lemma ShipStepKeeps(d: Db, i: nat, user: nat, now: Time)
    requires Inv(d)
    ensures Inv(ShipStep(d, i, user, now).db)
  {
    if ShipStep(d, i, user, now).error.None? {
      RowOf(d, i);
      ShipKeeps(d.config.feeRate, d.raffles[i], user, now);
      ReplaceRow(d, i, Ship(d.raffles[i], user, now).value);
    }
  }

  lemma ScheduleRowFacts(rate: real, r: Raffle, now: Time, fault: Fault)
    requires RowFacts(rate, r) && r.drawResult.Some?
    ensures RowFacts(rate, ScheduleRow(rate, r, now, fault)) && SameMoney(r, ScheduleRow(rate, r, now, fault))
    ensures ScheduleRow(rate, r, now, fault).(payout := r.payout) == r
  {
    WithPayoutKeeps(rate, r);
    var at := (if r.confirmedAt.Some? then r.confirmedAt.value else now) + PROTECTION_DAYS * DAY;
    ScheduledKeeps(rate, WithPayout(rate, r), at);
  }

  lemma ConfirmStepKeeps(d: Db, i: nat, user: nat, now: Time, fault: Fault)
    requires Inv(d)
    ensures Inv(ConfirmStep(d, i, user, now, fault).db)
  {
    if ConfirmStep(d, i, user, now, fault).error.None? {
      RowOf(d, i);
      var r := Confirm(d.raffles[i], user, now).value;
      ConfirmKeeps(d.config.feeRate, d.raffles[i], user, now);
      ScheduleRowFacts(d.config.feeRate, r, now, fault);
      ReplaceRow(d, i, ScheduleRow(d.config.feeRate, r, now, fault));
    }
  }

  lemma OpenDisputeStepKeeps(d: Db, i: nat, user: nat, now: Time)
    requires Inv(d)
    ensures Inv(OpenDisputeStep(d, i, user, now).db)
  {
    if OpenDisputeStep(d, i, user, now).error.None? {
      RowOf(d, i);
      OpenDisputeKeeps(d.config.feeRate, d.raffles[i], user, now);
      ReplaceRow(d, i, OpenDispute(d.raffles[i], user, now).value);
    }
  }

  lemma RespondStepKeeps(d: Db, i: nat, user: nat, now: Time)
    requires Inv(d)
    ensures Inv(RespondStep(d, i, user, now).db)
  {
    if RespondStep(d, i, user, now).error.None? {
      RowOf(d, i);
      RespondKeeps(d.config.feeRate, d.raffles[i], user, now);
      ReplaceRow(d, i, RespondDispute(d.raffles[i], user, now).value);
    }
  }

  /**
   The 48-hour escalation never changes anything: opening a dispute leaves it open, not waiting for the
   seller, and no call ever moves it into the state the escalation looks for.
   */
  lemma EscalationNeverFires(d: Db, i: nat, now: Time)
    requires Inv(d)
    ensures EscalateStep(d, i, now).db == d
  {
    if i < |d.raffles| {
      RowOf(d, i);
      assert Escalate(d.raffles[i], now) == d.raffles[i];
    }
  }

  lemma OpenSessionKeeps(d: Db, user: nat, provider: Provider, reference: nat, orderId: Option<nat>, amount: real)
    requires Inv(d)
    ensures Inv(OpenSession(d, user, provider, reference, orderId, amount).db)
  {
    if OpenSession(d, user, provider, reference, orderId, amount).error.None? {
      AppendSession(d, Opened(user, provider, reference, orderId, RoundHalfUp(amount)));
    }
  }
}
