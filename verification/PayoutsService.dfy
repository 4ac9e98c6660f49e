/** The payout service: status, raffle and ledger rows updated step by step, with a reversal on failure. */
module PayoutsService {
  import opened DueTick
  import opened Journal
  import opened Ledger
  import opened Market
  import opened Raffles
  import opened Store
  import opened Tickets
  import opened Wrappers

  function Reopened(r: Raffle): Raffle
    requires r.payout.Some?
  {
    if r.payout.value.status == Failed then PayoutSet(r, Pending) else r
  }

  lemma ForRaffleCases(d: Db, i: nat, now: Time, outcome: Outcome)
    requires i < |d.raffles|
    ensures var r := WithPayout(d.config.feeRate, d.raffles[i]);
            Market.ProcessPayoutForRaffle(d, i, now, outcome)
            == if r.payout.value.status == Completed then Ok(SetRaffle(d, i, r))
               else if r.payout.value.status == Processing then Market.Fail(SetRaffle(d, i, r), PayoutInProgress)
               else Market.ProcessPayout(SetRaffle(d, i, Scheduled(Reopened(r), now)), i, now, outcome)
  {
  }

  class Payouts {
    const db: Database
    const wallet: WalletService

    ghost predicate Valid() {
      wallet.db == db
    }

    constructor (db: Database)
      ensures this.db == db && Valid()
    {
      this.db := db;
      wallet := new WalletService(db);
    }

    /** The payout row of a raffle, created from its paid tickets when it does not exist yet. */
    method CreatePayout(i: nat)
      requires i < |db.raffles|
      modifies db
      ensures db.View() == SetRaffle(old(db.View()), i, WithPayout(db.config.feeRate, old(db.raffles)[i]))
    {
      var raffle := db.raffles[i];
      if raffle.payout.Some? {
        assert db.raffles[i := raffle] == db.raffles;
        return;
      }
      var gross: nat := 0;
      var k := 0;
      while k < |raffle.tickets|
        invariant 0 <= k <= |raffle.tickets|
        invariant gross == PaidTotal(raffle.tickets[..k])
      {
        assert raffle.tickets[..k + 1][..k] == raffle.tickets[..k];
        if !raffle.tickets[k].refunded {
          gross := gross + raffle.tickets[k].price;
        }
        k := k + 1;
      }
      assert raffle.tickets[..k] == raffle.tickets;
      var payout := Payout(NetOf(db.config.feeRate, gross), Pending, None, false);
      db.raffles := db.raffles[i := raffle.(payout := Some(payout))];
    }

    /** A week after the confirmation; the fault says where the storage fails, if it does. */
    method SchedulePayoutAfterDelivery(i: nat, now: Time, fault: Fault)
      requires i < |db.raffles|
      modifies db
      ensures db.View() == SetRaffle(old(db.View()), i, ScheduleRow(db.config.feeRate, old(db.raffles)[i], now, fault))
    {
      if fault == EarlyFault {
        assert db.raffles[i := db.raffles[i]] == db.raffles;
        return;
      }
      CreatePayout(i);
      if fault == LateFault {
        return;
      }
      var raffle := db.raffles[i];
      var confirmed := if raffle.confirmedAt.Some? then raffle.confirmedAt.value else now;
      db.raffles := db.raffles[i := Scheduled(raffle, confirmed + PROTECTION_DAYS * DAY)];
    }

    method CanReleaseFunds(i: nat, now: Time) returns (hold: Option<Hold>)
      requires i < |db.raffles|
      ensures hold == ReleaseHold(db.raffles[i], now)
    {
      var raffle := db.raffles[i];
      if raffle.releasedAt.Some? {
        return Some(AlreadyReleased);
      }
      if raffle.delivery != Confirmed {
        return Some(NotConfirmed);
      }
      if raffle.confirmedAt.None? {
        return Some(NoConfirmationDate);
      }
      if now < raffle.confirmedAt.value + PROTECTION_DAYS * DAY {
        return Some(StillProtected);
      }
      if raffle.dispute.Some? && !raffle.dispute.value.status.Resolved? {
        return Some(ActiveDispute);
      }
      return None;
    }

    method HasSellerPayableDebit(i: nat) returns (found: bool)
      ensures found == HasPayoutDebit(db.entries, i)
    {
      var k := 0;
      while k < |db.entries|
        invariant 0 <= k <= |db.entries|
        invariant forall j :: 0 <= j < k ==> !(db.entries[j].context.payout == Some(i) && db.entries[j].kind == SellerPayableDebit)
      {
        if db.entries[k].context.payout == Some(i) && db.entries[k].kind == SellerPayableDebit {
          return true;
        }
        k := k + 1;
      }
      return false;
    }

    /** Debit the seller and remember the provider's id, in one transaction. */
    method RecordAcceptedProviderPayout(i: nat) returns (error: Option<LedgerError>)
      requires i < |db.raffles| && db.raffles[i].payout.Some? && Valid()
      modifies db
      ensures match RecordAccepted(old(db.View()), i)
              case Success(d) => error.None? && db.View() == d
              case Failure(e) => error == Some(e) && db.View() == old(db.View())
    {
      var raffle := db.raffles[i];
      error := wallet.DebitSellerPayable(raffle.seller, raffle.payout.value.net, OnPayout(i, PayoutSettlement));
      if error.Some? {
        return;
      }
      db.raffles := db.raffles[i := raffle.(payout := Some(raffle.payout.value.(accepted := true)))];
    }

    /** Payout completed, money released, raffle finished, payment on record: one transaction. */
    method CompleteAcceptedPayout(i: nat, now: Time)
      requires i < |db.raffles| && db.raffles[i].payout.Some?
      modifies db
      ensures db.View() == CompletePayout(old(db.View()), i, now)
    {
      var raffle := db.raffles[i];
      var net := raffle.payout.value.net;
      db.raffles := db.raffles[i := raffle.(payout := Some(raffle.payout.value.(status := Completed, accepted := true)))];
      db.raffles := db.raffles[i := db.raffles[i].(releasedAt := Some(now), status := Finalised)];
      db.txs := db.txs + [Tx(SellerPayment, raffle.seller, net, net, Some(i), None)];
    }

    /** What the failure handler does, whatever failed. */
    method Fail(i: nat)
      requires i < |db.raffles| && db.raffles[i].payout.Some? && Valid()
      modifies db
      ensures db.View() == FailPayout(old(db.View()), i)
    {
      var raffle := db.raffles[i];
      var debited := HasSellerPayableDebit(i);
      if debited {
        var error := wallet.CreditSellerPayable(raffle.seller, raffle.payout.value.net, OnPayout(i, PayoutFailedReversal));
        if error.Some? {
          return;
        }
      }
      db.raffles := db.raffles[i := raffle.(payout := Some(raffle.payout.value.(status := Failed)))];
    }

    /** The guarded part of an attempt: an error here is handled by the failure handler. */
    method AskProvider(i: nat, now: Time, outcome: Outcome) returns (error: Option<Rejection>)
      requires i < |db.raffles| && db.raffles[i].payout.Some? && Valid()
      modifies db
      ensures |db.raffles| == old(|db.raffles|) && db.raffles[i].payout.Some?
      ensures error.None? ==> Ok(db.View()) == AttemptPayout(old(db.View()), i, now, outcome)
      ensures error.Some? ==> Market.Fail(FailPayout(db.View(), i), error.value) == AttemptPayout(old(db.View()), i, now, outcome)
    {
      var raffle := db.raffles[i];
      if outcome.provider == NotConnected {
        return Some(NoSellerAccount);
      }
      if raffle.seller >= |db.wallets| || db.wallets[raffle.seller].payable < raffle.payout.value.net {
        return Some(BadAmount);
      }
      if outcome.provider == CallThrows || outcome.provider == PayoutRejected {
        return Some(ProviderRefused);
      }
      if outcome.fault == EarlyFault {
        return Some(StorageFault);
      }
      var refused := RecordAcceptedProviderPayout(i);
      if refused.Some? {
        return Some(BadAmount);
      }
      if outcome.fault == LateFault {
        return Some(StorageFault);
      }
      if outcome.provider == PayoutCompleted {
        CompleteAcceptedPayout(i, now);
      }
      return None;
    }

    method ProcessPayout(i: nat, now: Time, outcome: Outcome) returns (error: Option<Rejection>)
      requires Valid()
      modifies db
      ensures Reply(db.View(), error) == Market.ProcessPayout(old(db.View()), i, now, outcome)
    {
      if i >= |db.raffles| || db.raffles[i].payout.None? {
        return Some(NotFound);
      }
      if db.raffles[i].payout.value.status != Pending {
        return Some(PayoutNotPending);
      }
      var hold := CanReleaseFunds(i, now);
      if hold.Some? {
        return Some(OnHold(hold.value));
      }
      db.raffles := db.raffles[i := PayoutSet(db.raffles[i], Processing)];
      error := AskProvider(i, now, outcome);
      if error.Some? {
        Fail(i);
      }
    }
  
    /** Date a payout for now; one that had failed becomes pending again. */
    method Reopen(i: nat, now: Time)
      requires i < |db.raffles| && db.raffles[i].payout.Some?
      modifies db
      ensures db.View() == SetRaffle(old(db.View()), i, Scheduled(Reopened(old(db.raffles)[i]), now))
    {
      if db.raffles[i].payout.value.status == Failed {
        db.raffles := db.raffles[i := PayoutSet(db.raffles[i], Pending)];
      }
      db.raffles := db.raffles[i := Scheduled(db.raffles[i], now)];
      assert db.raffles == old(db.raffles)[i := Scheduled(Reopened(old(db.raffles)[i]), now)];
    }

    /** Pay the seller of a raffle now, if nothing holds the money back. */
    method ProcessPayoutForRaffle(i: nat, now: Time, outcome: Outcome) returns (error: Option<Rejection>)
      requires Valid()
      modifies db
      ensures Reply(db.View(), error) == Market.ProcessPayoutForRaffle(old(db.View()), i, now, outcome)
    {
      ghost var start := db.View();
      if i >= |db.raffles| {
        return Some(NotFound);
      }
      CreatePayout(i);
      ForRaffleCases(start, i, now, outcome);
      var status := db.raffles[i].payout.value.status;
      if status == Completed {
        return None;
      }
      if status == Processing {
        return Some(PayoutInProgress);
      }
      Reopen(i, now);
      ghost var ready := SetRaffle(start, i, Scheduled(Reopened(WithPayout(start.config.feeRate, start.raffles[i])), now));
      assert db.View() == ready;
      error := ProcessPayout(i, now, outcome);
    }

    /** Ask the provider what became of a payout under way. */
    method SyncProviderPayoutStatus(i: nat, now: Time, outcome: Outcome) returns (error: Option<Rejection>)
      requires Valid()
      modifies db
      ensures Reply(db.View(), error) == SyncPayout(old(db.View()), i, now, outcome)
    {
      if i >= |db.raffles| || db.raffles[i].payout.None? {
        return Some(NotFound);
      }
      var raffle := db.raffles[i];
      var payout := raffle.payout.value;
      if payout.status != Processing {
        return None;
      }
      if !payout.accepted {
        return Some(NoProviderId);
      }
      if outcome.provider == NotConnected || outcome.provider == CallThrows {
        return Some(ProviderRefused);
      }
      if outcome.provider == PayoutProcessing {
        return None;
      }
      if outcome.provider == PayoutCompleted {
        if outcome.fault != NoFault {
          return Some(StorageFault);
        }
        CompleteAcceptedPayout(i, now);
        return None;
      }
      var refused := wallet.CreditSellerPayable(raffle.seller, payout.net, OnPayout(i, PayoutFailedReversal));
      if refused.Some? {
        return Some(BadAmount);
      }
      db.raffles := db.raffles[i := raffle.(payout := Some(payout.(status := Failed)))];
      return None;
    }

    /** The pending payouts whose date has come, read once. */
    method FindDue(now: Time, at: nat -> Time, outcomes: nat -> Outcome) returns (due: seq<nat>)
      ensures Listed(due, DueAttempts(db.raffles, now, at, outcomes), at, outcomes)
    {
      var rows := db.raffles;
      due := [];
      var n := 0;
      while n < |rows|
        invariant 0 <= n <= |rows|
        invariant Listed(due, DueAttempts(rows[..n], now, at, outcomes), at, outcomes)
      {
        assert rows[..n + 1][..n] == rows[..n];
        if Due(rows[n], now) {
          due := due + [n];
        }
        n := n + 1;
      }
      assert rows[..n] == rows;
    }

    /** One listed payout; its delivery status is the one that was read with the list. */
    method TryListed(rows: seq<Raffle>, i: nat, now: Time, outcome: Outcome, ghost start: Db)
      requires Valid() && rows == start.raffles
      modifies db
      ensures db.View() == TryOne(start, old(db.View()), Attempt(i, now, outcome))
    {
      if i < |rows| && rows[i].delivery == Confirmed {
        var error := ProcessPayout(i, now, outcome);
      }
    }

    /** Every pending payout whose date has come, one after another; a failure only concerns its own payout. */
    method ProcessDuePayouts(now: Time, at: nat -> Time, outcomes: nat -> Outcome)
      requires Valid()
      modifies db
      ensures db.View() == Tick(old(db.View()), DueAttempts(old(db.raffles), now, at, outcomes))
    {
      ghost var start := db.View();
      ghost var attempts := DueAttempts(db.raffles, now, at, outcomes);
      var rows := db.raffles;
      var due := FindDue(now, at, outcomes);
      var k := 0;
      while k < |due|
        invariant 0 <= k <= |due|
        invariant db.View() == Tick(start, attempts[..k])
      {
        TryListed(rows, due[k], at(due[k]), outcomes(due[k]), start);
        assert attempts[..k + 1][..k] == attempts[..k];
        k := k + 1;
      }
      assert attempts[..k] == attempts;
    }
  }

  predicate Listed(due: seq<nat>, attempts: seq<Attempt>, at: nat -> Time, outcomes: nat -> Outcome) {
    && |due| == |attempts|
    && forall k :: 0 <= k < |due| ==> attempts[k] == Attempt(due[k], at(due[k]), outcomes(due[k]))
  }
}
