/**
 What becomes of a payout: which answers of the provider and which faults lead to which end, and what each
 end does to the row, to the wallets and to the transaction history.
 */
module PayoutOutcomes {
  import opened Journal
  import opened LifecycleKeeps
  import opened Market
  import opened MarketInvariant
  import opened PayoutKeeps
  import opened Raffles
  import opened Wrappers

  /** Everything of the row but its payout, its release and its status, and everything else of the market but the books. */
  ghost predicate OnlyPayoutOf(d: Db, e: Db, i: nat)
    requires i < |d.raffles|
  {
    && |e.raffles| == |d.raffles|
    && (forall j :: 0 <= j < |d.raffles| && j != i ==> e.raffles[j] == d.raffles[j])
    && (var r, s := d.raffles[i], e.raffles[i];
        && r.payout.Some? && s.payout.Some?
        && s == r.(payout := s.payout, releasedAt := s.releasedAt, status := s.status)
        && s.payout.value == r.payout.value.(status := s.payout.value.status, accepted := s.payout.value.accepted))
    && e.config == d.config && e.sessions == d.sessions && e.providerEvents == d.providerEvents
  }

  /** The seller's payable changed by this much, and no other balance of anybody changed. */
  ghost predicate SellerGained(d: Db, e: Db, i: nat, amount: int)
    requires i < |d.raffles|
  {
    var seller := d.raffles[i].seller;
    && seller < |d.books.wallets| == |e.books.wallets|
    && e.books.wallets[seller].payable == d.books.wallets[seller].payable + amount
    && e.books.wallets[seller].credit == d.books.wallets[seller].credit
    && forall u :: 0 <= u < |d.books.wallets| && u != seller ==> e.books.wallets[u] == d.books.wallets[u]
  }

  /** Completed and released now, the raffle finished, one payment of the net amount on record. */
  ghost predicate PaidNow(d: Db, e: Db, i: nat, now: Time)
    requires i < |d.raffles|
  {
    && OnlyPayoutOf(d, e, i)
    && var r, s := d.raffles[i], e.raffles[i];
    && s.payout.value.status == Completed && s.payout.value.accepted
    && s.releasedAt == Some(now) && s.status == Finalised
    && e.txs == d.txs + [Tx(SellerPayment, r.seller, r.payout.value.net, r.payout.value.net, Some(i), None)]
  }

  /** Accepted by the provider and not settled yet. */
  ghost predicate UnderWay(d: Db, e: Db, i: nat)
    requires i < |d.raffles|
  {
    && OnlyPayoutOf(d, e, i)
    && var r, s := d.raffles[i], e.raffles[i];
    && s.payout.value.status == Processing && s.payout.value.accepted
    && s.releasedAt == r.releasedAt && s.status == r.status && e.txs == d.txs
  }

  ghost predicate GivenUp(d: Db, e: Db, i: nat)
    requires i < |d.raffles|
  {
    && OnlyPayoutOf(d, e, i)
    && var r, s := d.raffles[i], e.raffles[i];
    && s.payout.value.status == Failed
    && s.releasedAt == r.releasedAt && s.status == r.status && e.txs == d.txs
  }

  /** The seller is connected and the payable balance covers a positive net amount. */
  predicate Covered(d: Db, i: nat, outcome: Outcome)
    requires i < |d.raffles| && d.raffles[i].payout.Some? && d.raffles[i].seller < |d.books.wallets|
  {
    var net := d.raffles[i].payout.value.net;
    outcome.provider != NotConnected && 0 < net <= d.books.wallets[d.raffles[i].seller].payable
  }

  // ----- The three ends -----

  lemma AcceptedIsUnderWay(d: Db, i: nat, now: Time)
    requires Inv(d) && i < |d.raffles| && Attemptable(d.raffles[i], now) && AcceptedDb(d, i).Success?
    ensures UnderWay(d, AcceptedDb(d, i).value, i)
    ensures SellerGained(d, AcceptedDb(d, i).value, i, -d.raffles[i].payout.value.net)
  {
    AcceptedResult(d, i);
  }

  lemma CompletedIsPaid(d: Db, i: nat, now: Time)
    requires Inv(d) && i < |d.raffles| && Attemptable(d.raffles[i], now) && AcceptedDb(d, i).Success?
    ensures PaidNow(d, CompletePayout(AcceptedDb(d, i).value, i, now), i, now)
    ensures SellerGained(d, CompletePayout(AcceptedDb(d, i).value, i, now), i, -d.raffles[i].payout.value.net)
  {
    AcceptedResult(d, i);
  }

  /** Debiting and giving back leaves every balance as it was. */
  lemma DebitGivenBack(d: Db, i: nat)
    requires i < |d.raffles| && d.raffles[i].payout.Some? && AcceptedDb(d, i).Success?
    requires ReversedDb(AcceptedDb(d, i).value, i).Success?
    ensures GivenUp(d, ReversedDb(AcceptedDb(d, i).value, i).value, i)
    ensures SellerGained(d, ReversedDb(AcceptedDb(d, i).value, i).value, i, 0)
  {
    AcceptedResult(d, i);
  }

  lemma ReversedIsGivenUp(d: Db, i: nat, now: Time)
    requires Inv(d) && i < |d.raffles| && Attemptable(d.raffles[i], now) && AcceptedDb(d, i).Success?
    ensures GivenUp(d, FailPayout(AcceptedDb(d, i).value, i), i)
    ensures SellerGained(d, FailPayout(AcceptedDb(d, i).value, i), i, 0)
  {
    AcceptedKeeps(d, i, now);
    FailAfterDebit(AcceptedDb(d, i).value, i);
    DebitGivenBack(d, i);
  }

  lemma EarlyFailureIsGivenUp(d: Db, i: nat)
    requires Inv(d) && i < |d.raffles| && d.raffles[i].payout.Some? && !PayoutStarted(d.raffles[i])
    ensures var e := FailPayout(SetRaffle(d, i, PayoutSet(d.raffles[i], Processing)), i);
            GivenUp(d, e, i) && SellerGained(d, e, i, 0)
  {
    FailBeforeDebit(d, i);
    RowOf(d, i);
  }

  lemma CoveredIsAccepted(d: Db, i: nat)
    requires Inv(d) && i < |d.raffles| && d.raffles[i].payout.Some?
    ensures d.raffles[i].seller < |d.books.wallets|
    ensures AcceptedDb(d, i).Success? <==>
            0 < d.raffles[i].payout.value.net <= d.books.wallets[d.raffles[i].seller].payable
  {
    RowOf(d, i);
  }

  /** The end an attempt comes to, by what the provider answered and where the storage failed. */
  lemma AttemptEnds(d: Db, i: nat, now: Time, outcome: Outcome)
    requires i < |d.raffles| && Attemptable(d.raffles[i], now) && d.raffles[i].seller < |d.books.wallets|
    requires AcceptedDb(d, i).Success? <==>
             0 < d.raffles[i].payout.value.net <= d.books.wallets[d.raffles[i].seller].payable
    ensures var start := SetRaffle(d, i, PayoutSet(d.raffles[i], Processing));
            var a := ProcessPayout(d, i, now, outcome);
            var early := !Covered(d, i, outcome) || outcome.provider == CallThrows || outcome.provider == PayoutRejected
                         || outcome.fault == EarlyFault;
            && (early ==> a.db == FailPayout(start, i) && a.error.Some?)
            && (!early && outcome.fault == LateFault ==> a.db == FailPayout(AcceptedDb(d, i).value, i) && a.error.Some?)
            && (!early && outcome.fault == NoFault && outcome.provider == PayoutCompleted ==>
                  a == Ok(CompletePayout(AcceptedDb(d, i).value, i, now)))
            && (!early && outcome.fault == NoFault && outcome.provider == PayoutProcessing ==> a == Ok(AcceptedDb(d, i).value))
  {
  }

  /** The provider did its part: the seller is connected and covered, and nothing failed on the way. */
  predicate Undisturbed(d: Db, i: nat, outcome: Outcome, answer: ProviderOutcome)
    requires i < |d.raffles| && d.raffles[i].payout.Some? && d.raffles[i].seller < |d.books.wallets|
  {
    Covered(d, i, outcome) && outcome.provider == answer && outcome.fault == NoFault
  }

  /** The possible ends, what each does to the seller, and that only failures report an error. */
  ghost predicate AttemptOutcome(d: Db, a: Reply, i: nat, now: Time, outcome: Outcome)
    requires i < |d.raffles| && d.raffles[i].payout.Some? && d.raffles[i].seller < |d.books.wallets|
  {
    var net := d.raffles[i].payout.value.net;
    if Undisturbed(d, i, outcome, PayoutCompleted) then
      PaidNow(d, a.db, i, now) && SellerGained(d, a.db, i, -net) && a.error.None?
    else if Undisturbed(d, i, outcome, PayoutProcessing) then
      UnderWay(d, a.db, i) && SellerGained(d, a.db, i, -net) && a.error.None?
    else
      GivenUp(d, a.db, i) && SellerGained(d, a.db, i, 0) && a.error.Some?
  }

  lemma AcceptedOutcomeHolds(d: Db, i: nat, now: Time, outcome: Outcome)
    requires Inv(d) && i < |d.raffles| && Attemptable(d.raffles[i], now) && AcceptedDb(d, i).Success?
    requires d.raffles[i].seller < |d.books.wallets| && Covered(d, i, outcome)
    requires outcome.provider == PayoutCompleted || outcome.provider == PayoutProcessing
    ensures outcome.fault != EarlyFault ==> AttemptOutcome(d, ProcessPayout(d, i, now, outcome), i, now, outcome)
  {
    CoveredIsAccepted(d, i);
    AttemptEnds(d, i, now, outcome);
    if outcome.fault == LateFault {
      ReversedIsGivenUp(d, i, now);
    } else if outcome.provider == PayoutCompleted {
      CompletedIsPaid(d, i, now);
    } else {
      AcceptedIsUnderWay(d, i, now);
    }
  }

  lemma AttemptOutcomeHolds(d: Db, i: nat, now: Time, outcome: Outcome)
    requires Inv(d) && i < |d.raffles| && Attemptable(d.raffles[i], now)
    ensures d.raffles[i].seller < |d.books.wallets|
    ensures AttemptOutcome(d, ProcessPayout(d, i, now, outcome), i, now, outcome)
  {
    CoveredIsAccepted(d, i);
    var answered := outcome.provider == PayoutCompleted || outcome.provider == PayoutProcessing;
    if Covered(d, i, outcome) && answered && outcome.fault != EarlyFault {
      AcceptedOutcomeHolds(d, i, now, outcome);
    } else {
      AttemptEnds(d, i, now, outcome);
      EarlyFailureIsGivenUp(d, i);
    }
  }

  /**
   An attempt on a releasable payout ends in exactly one of three ways: paid exactly when the provider
   completes, under way exactly when it accepts, and given up exactly when the seller is not connected or
   not covered, the provider throws or refuses, or the storage fails. Paid and under way take the net amount
   from the seller's payable balance, giving up leaves every balance as it was.
   */
  lemma AttemptEndsExactly(d: Db, i: nat, now: Time, outcome: Outcome)
    requires Inv(d) && i < |d.raffles| && Attemptable(d.raffles[i], now)
    ensures d.raffles[i].seller < |d.books.wallets|
    ensures var a := ProcessPayout(d, i, now, outcome);
            var net := d.raffles[i].payout.value.net;
            && |a.db.raffles| == |d.raffles| && a.db.raffles[i].payout.Some?
            && var status := a.db.raffles[i].payout.value.status;
            && (status == Completed <==> Undisturbed(d, i, outcome, PayoutCompleted))
            && (status == Processing <==> Undisturbed(d, i, outcome, PayoutProcessing))
            && (status == Failed <==>
                  || outcome.provider in {NotConnected, CallThrows, PayoutRejected}
                  || !(0 < net <= d.books.wallets[d.raffles[i].seller].payable)
                  || outcome.fault != NoFault)
            && (status == Completed ==> PaidNow(d, a.db, i, now) && SellerGained(d, a.db, i, -net) && a.error.None?)
            && (status == Processing ==> UnderWay(d, a.db, i) && SellerGained(d, a.db, i, -net) && a.error.None?)
            && (status == Failed ==> GivenUp(d, a.db, i) && SellerGained(d, a.db, i, 0) && a.error.Some?)
  {
    AttemptOutcomeHolds(d, i, now, outcome);
  }

  // ----- Asking the provider later -----

  lemma SyncPays(d: Db, i: nat, now: Time, fault: Fault)
    requires Inv(d) && i < |d.raffles| && d.raffles[i].payout.Some? && d.raffles[i].payout.value.status == Processing
    ensures d.raffles[i].seller < |d.books.wallets|
    ensures var a := SyncPayout(d, i, now, Outcome(PayoutCompleted, fault));
            if fault == NoFault then PaidNow(d, a.db, i, now) && SellerGained(d, a.db, i, 0) && a.error.None?
            else a.db == d && a.error.Some?
  {
    RowOf(d, i);
  }

  lemma SyncGivesBack(d: Db, i: nat, now: Time, fault: Fault)
    requires Inv(d) && i < |d.raffles| && d.raffles[i].payout.Some? && d.raffles[i].payout.value.status == Processing
    ensures d.raffles[i].seller < |d.books.wallets|
    ensures var a := SyncPayout(d, i, now, Outcome(PayoutRejected, fault));
            GivenUp(d, a.db, i) && SellerGained(d, a.db, i, d.raffles[i].payout.value.net) && a.error.None?
  {
    RowOf(d, i);
  }

  /**
   A payout under way is settled by a later sync exactly as the provider reports: paid on completion, given
   up with the net amount returned on refusal, and otherwise left alone, as is any payout not under way.
   */
  lemma SyncEndsExactly(d: Db, i: nat, now: Time, outcome: Outcome)
    requires Inv(d) && i < |d.raffles| && d.raffles[i].payout.Some?
    ensures d.raffles[i].seller < |d.books.wallets|
    ensures var a := SyncPayout(d, i, now, outcome);
            var p := d.raffles[i].payout.value;
            if p.status == Processing && outcome.provider == PayoutCompleted && outcome.fault == NoFault then
              PaidNow(d, a.db, i, now) && SellerGained(d, a.db, i, 0) && a.error.None?
            else if p.status == Processing && outcome.provider == PayoutRejected then
              GivenUp(d, a.db, i) && SellerGained(d, a.db, i, p.net) && a.error.None?
            else
              && a.db == d
              && (a.error.None? <==> p.status != Processing || outcome.provider == PayoutProcessing)
  {
    RowOf(d, i);
    if d.raffles[i].payout.value.status == Processing {
      if outcome.provider == PayoutCompleted {
        SyncPays(d, i, now, outcome.fault);
      } else if outcome.provider == PayoutRejected {
        SyncGivesBack(d, i, now, outcome.fault);
      }
    }
  }
}
