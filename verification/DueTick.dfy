/**
 The scheduled tick over due payouts: a list read once at the start, then one attempt after another, each
 at its own time and with its own outcome.
 */
module DueTick {
  import opened ExactConditions
  import opened LifecycleKeeps
  import opened Market
  import opened MarketInvariant
  import opened PayoutKeeps
  import opened Raffles

  datatype Attempt = Attempt(raffle: nat, at: Time, outcome: Outcome)

  /** The attempts of a tick cover each due payout once, in any order, none before the tick started. */
  ghost predicate TickOf(d: Db, now: Time, attempts: seq<Attempt>) {
    && (forall k :: 0 <= k < |attempts| ==>
          attempts[k].raffle < |d.raffles| && Due(d.raffles[attempts[k].raffle], now) && now <= attempts[k].at)
    && OnceEach(attempts)
    && (forall i: nat :: i < |d.raffles| && Due(d.raffles[i], now) ==> Covers(attempts, i))
  }

  ghost predicate Covers(attempts: seq<Attempt>, i: nat) {
    exists k :: 0 <= k < |attempts| && attempts[k].raffle == i
  }

  /** The delivery status is the one read at the start; an error of an attempt is only logged. */
  function TryOne(snapshot: Db, d: Db, a: Attempt): Db {
    if a.raffle >= |snapshot.raffles| || snapshot.raffles[a.raffle].delivery != Confirmed then d
    else ProcessPayout(d, a.raffle, a.at, a.outcome).db
  }

  function Tick(snapshot: Db, attempts: seq<Attempt>): Db {
    if |attempts| == 0 then snapshot
    else TryOne(snapshot, Tick(snapshot, attempts[..|attempts| - 1]), attempts[|attempts| - 1])
  }

  /** An attempt on one payout leaves every other row exactly as it was. */
  lemma AttemptIsLocal(d: Db, i: nat, now: Time, outcome: Outcome)
    ensures var e := ProcessPayout(d, i, now, outcome).db;
            |e.raffles| == |d.raffles| && forall j :: 0 <= j < |d.raffles| && j != i ==> e.raffles[j] == d.raffles[j]
  {
  }

  /** Whether a payout is tried does not depend on what happened to any other payout of the tick. */
  predicate Tried(r: Raffle, at: Time) {
    && r.payout.Some? && r.payout.value.status == Pending
    && r.confirmedAt.Some? && r.confirmedAt.value + PROTECTION_DAYS * DAY <= at
  }

  ghost predicate SettledBy(before: Raffle, after: Raffle, at: Time) {
    if Tried(before, at) then PayoutStarted(after) else after == before
  }

  ghost predicate OnceEach(attempts: seq<Attempt>) {
    forall j, k :: 0 <= j < k < |attempts| ==> attempts[j].raffle != attempts[k].raffle
  }

  /** Tried payouts have started, all other rows are untouched. */
  ghost predicate TickDid(rows: seq<Raffle>, after: seq<Raffle>, attempts: seq<Attempt>) {
    && |after| == |rows|
    && (forall k :: 0 <= k < |attempts| ==>
          attempts[k].raffle < |rows| && SettledBy(rows[attempts[k].raffle], after[attempts[k].raffle], attempts[k].at))
    && (forall i: nat :: i < |rows| && !Covers(attempts, i) ==> after[i] == rows[i])
  }

  lemma {:induction false} TickEffect(d: Db, attempts: seq<Attempt>)
    requires Inv(d) && OnceEach(attempts)
    requires forall k :: 0 <= k < |attempts| ==> attempts[k].raffle < |d.raffles|
    ensures Inv(Tick(d, attempts)) && TickDid(d.raffles, Tick(d, attempts).raffles, attempts)
  {
    if |attempts| > 0 {
      var last := |attempts| - 1;
      TickEffect(d, attempts[..last]);
      var mid := Tick(d, attempts[..last]);
      NextAttempt(d, mid, TryOne(d, mid, attempts[last]), attempts);
    }
  }

  lemma NextAttempt(d: Db, mid: Db, next: Db, attempts: seq<Attempt>)
    requires Inv(d) && Inv(mid) && |attempts| > 0 && OnceEach(attempts)
    requires TickDid(d.raffles, mid.raffles, attempts[..|attempts| - 1])
    requires attempts[|attempts| - 1].raffle < |d.raffles| && next == TryOne(d, mid, attempts[|attempts| - 1])
    ensures Inv(next) && TickDid(d.raffles, next.raffles, attempts)
  {
    var last := |attempts| - 1;
    assert !Covers(attempts[..last], attempts[last].raffle);
    LastAttempt(d, mid, attempts[last]);
    OneMoreAttempt(d.raffles, mid.raffles, next.raffles, attempts);
  }

  lemma OneMoreAttempt(rows: seq<Raffle>, mid: seq<Raffle>, after: seq<Raffle>, attempts: seq<Attempt>)
    requires |attempts| > 0 && OnceEach(attempts) && TickDid(rows, mid, attempts[..|attempts| - 1])
    requires var a := attempts[|attempts| - 1];
             && a.raffle < |rows| == |after|
             && SettledBy(rows[a.raffle], after[a.raffle], a.at)
             && forall j :: 0 <= j < |rows| && j != a.raffle ==> after[j] == mid[j]
    ensures TickDid(rows, after, attempts)
  {
    var last := |attempts| - 1;
    forall i: nat | i < |rows| && !Covers(attempts, i) ensures after[i] == rows[i] {
      assert attempts[last].raffle != i;
      NotCoveredBefore(attempts, i);
    }
    forall k | 0 <= k < last
      ensures attempts[k].raffle < |rows| && SettledBy(rows[attempts[k].raffle], after[attempts[k].raffle], attempts[k].at)
    {
      assert attempts[..last][k] == attempts[k];
    }
  }

  lemma NotCoveredBefore(attempts: seq<Attempt>, i: nat)
    requires |attempts| > 0 && !Covers(attempts, i)
    ensures !Covers(attempts[..|attempts| - 1], i)
  {
    var front := attempts[..|attempts| - 1];
    forall k | 0 <= k < |front| ensures front[k].raffle != i {
      assert attempts[k].raffle != i;
    }
  }

  lemma LastAttempt(d: Db, mid: Db, a: Attempt)
    requires Inv(d) && Inv(mid) && |mid.raffles| == |d.raffles| && a.raffle < |d.raffles|
    requires mid.raffles[a.raffle] == d.raffles[a.raffle]
    ensures var e := TryOne(d, mid, a);
            && Inv(e) && |e.raffles| == |d.raffles|
            && SettledBy(d.raffles[a.raffle], e.raffles[a.raffle], a.at)
            && forall j :: 0 <= j < |d.raffles| && j != a.raffle ==> e.raffles[j] == mid.raffles[j]
  {
    RowOf(d, a.raffle);
    ProcessPayoutKeeps(mid, a.raffle, a.at, a.outcome);
    AttemptIsLocal(mid, a.raffle, a.at, a.outcome);
    if d.raffles[a.raffle].payout.Some? {
      AttemptedExactlyWhenReleasable(mid, a.raffle, a.at, a.outcome);
    }
  }

  /** What a tick promises about each payout that was due and ready when it started. */
  ghost predicate Ready(r: Raffle, now: Time) {
    && Due(r, now)
    && r.delivery == Confirmed
    && r.confirmedAt.Some? && r.confirmedAt.value + PROTECTION_DAYS * DAY <= now
    && !DisputeActive(r)
  }

  /**
   A tick leaves no payout pending that was due, confirmed, past its protection week and undisputed, and
   leaves every payout that was not due, or not releasable when its turn came, exactly as it was.
   */
  lemma TickLeavesNoneBehind(d: Db, now: Time, attempts: seq<Attempt>, i: nat)
    requires Inv(d) && TickOf(d, now, attempts) && i < |d.raffles|
    ensures Inv(Tick(d, attempts)) && |Tick(d, attempts).raffles| == |d.raffles|
    ensures Ready(d.raffles[i], now) ==> PayoutStarted(Tick(d, attempts).raffles[i])
    ensures !Due(d.raffles[i], now) ==> Tick(d, attempts).raffles[i] == d.raffles[i]
    ensures forall k :: 0 <= k < |attempts| && attempts[k].raffle == i && ReleaseHold(d.raffles[i], attempts[k].at).Some? ==>
              Tick(d, attempts).raffles[i] == d.raffles[i]
  {
    TickEffect(d, attempts);
    RowOf(d, i);
    if Due(d.raffles[i], now) {
      assert Covers(attempts, i);
    } else {
      assert !Covers(attempts, i);
    }
  }

  // ----- The list a tick reads -----

  /** The attempts on the due rows in storage order; at and outcomes are the clock and the provider, row by row. */
  function DueAttempts(rows: seq<Raffle>, now: Time, at: nat -> Time, outcomes: nat -> Outcome): seq<Attempt> {
    if |rows| == 0 then []
    else
      var last := |rows| - 1;
      DueAttempts(rows[..last], now, at, outcomes)
      + (if Due(rows[last], now) then [Attempt(last, at(last), outcomes(last))] else [])
  }

  lemma {:induction false} DueAttemptsListed(rows: seq<Raffle>, now: Time, at: nat -> Time, outcomes: nat -> Outcome)
    requires forall i :: now <= at(i)
    ensures OnceEach(DueAttempts(rows, now, at, outcomes))
    ensures forall k :: 0 <= k < |DueAttempts(rows, now, at, outcomes)| ==>
              var a := DueAttempts(rows, now, at, outcomes)[k];
              a.raffle < |rows| && Due(rows[a.raffle], now) && now <= a.at
    ensures forall i: nat :: i < |rows| && Due(rows[i], now) ==> Covers(DueAttempts(rows, now, at, outcomes), i)
  {
    if |rows| > 0 {
      var last := |rows| - 1;
      DueAttemptsListed(rows[..last], now, at, outcomes);
      var before := DueAttempts(rows[..last], now, at, outcomes);
      var all := DueAttempts(rows, now, at, outcomes);
      forall i: nat | i < |rows| && Due(rows[i], now) ensures Covers(all, i) {
        if i < last {
          assert Covers(before, i);
          var k :| 0 <= k < |before| && before[k].raffle == i;
          assert all[k].raffle == i;
        } else {
          assert all[|before|].raffle == i;
        }
      }
    }
  }

  /** Reading the due rows once and trying each is a tick. */
  lemma DueAttemptsAreATick(d: Db, now: Time, at: nat -> Time, outcomes: nat -> Outcome)
    requires forall i :: now <= at(i)
    ensures TickOf(d, now, DueAttempts(d.raffles, now, at, outcomes))
  {
    DueAttemptsListed(d.raffles, now, at, outcomes);
  }
}
