/**
 Hourly limits on verification codes and password reset tokens. Both are append-only tables with a
 creation time; a new row is refused when the user already has three of the last hour.
 */
module RateLimits {
  import opened Wrappers

  type Time = int

  const HOUR := 3_600_000
  const LIMIT := 3
  const RESET_LIFETIME := 30 * 60_000
  const CODE_LIFETIME := 15 * 60_000

  /** A reset token or a verification code. */
  datatype Ticket = Ticket(user: nat, createdAt: Time, expiresAt: Time, usedAt: Option<Time>)

  datatype Verdict = Created | TooMany

  datatype Answer = Answer(rows: seq<Ticket>, verdict: Verdict)

  function Bit(condition: bool): nat {
    if condition then 1 else 0
  }

  /** Rows of a user created in the hour that follows a moment, its end included. */
  function InHour(rows: seq<Ticket>, user: nat, start: Time): nat {
    if |rows| == 0 then 0
    else
      var t := rows[|rows| - 1];
      InHour(rows[..|rows| - 1], user, start) + Bit(t.user == user && start < t.createdAt <= start + HOUR)
  }

  /** What the services count: the rows of the last hour, whatever became of them. */
  function Recent(rows: seq<Ticket>, user: nat, now: Time): nat {
    if |rows| == 0 then 0
    else Recent(rows[..|rows| - 1], user, now) + Bit(rows[|rows| - 1].user == user && rows[|rows| - 1].createdAt > now - HOUR)
  }

  predicate Unused(t: Ticket, user: nat, now: Time, expiredToo: bool) {
    t.user == user && t.usedAt.None? && (expiredToo || t.expiresAt > now)
  }

  /** Earlier rows stop being usable: all unused ones for codes, the unexpired ones for reset tokens. */
  function Invalidated(rows: seq<Ticket>, user: nat, now: Time, expiredToo: bool): seq<Ticket> {
    seq(|rows|, k requires 0 <= k < |rows| =>
      if Unused(rows[k], user, now, expiredToo) then rows[k].(usedAt := Some(now)) else rows[k])
  }

  function WithNew(rows: seq<Ticket>, user: nat, now: Time, lifetime: int): seq<Ticket> {
    rows + [Ticket(user, now, now + lifetime, None)]
  }

  /** The code of a registration is created without a check: the user is new. */
  function RegisterCode(rows: seq<Ticket>, user: nat, now: Time): seq<Ticket> {
    WithNew(rows, user, now, CODE_LIFETIME)
  }

  function ResendCode(rows: seq<Ticket>, user: nat, now: Time): Answer {
    if Recent(rows, user, now) >= LIMIT then Answer(rows, TooMany)
    else Answer(WithNew(Invalidated(rows, user, now, true), user, now, CODE_LIFETIME), Created)
  }

  function RequestReset(rows: seq<Ticket>, user: nat, now: Time): Answer {
    if Recent(rows, user, now) >= LIMIT then Answer(rows, TooMany)
    else Answer(WithNew(Invalidated(rows, user, now, false), user, now, RESET_LIFETIME), Created)
  }

  /** A code or token is used up. */
  function Consumed(rows: seq<Ticket>, k: nat, now: Time): seq<Ticket> {
    if k >= |rows| then rows else rows[k := rows[k].(usedAt := Some(now))]
  }

  // ----- The limit -----

  /** No hour, wherever it starts, holds more than three rows of one user. */
  ghost predicate Limited(rows: seq<Ticket>) {
    forall user: nat, start: Time :: InHour(rows, user, start) <= LIMIT
  }

  /** Only owner and creation time matter to the count. */
  lemma {:induction false} CountSame(a: seq<Ticket>, b: seq<Ticket>, user: nat, start: Time)
    requires |a| == |b| && forall k :: 0 <= k < |a| ==> a[k].user == b[k].user && a[k].createdAt == b[k].createdAt
    ensures InHour(a, user, start) == InHour(b, user, start)
  {
    if |a| > 0 {
      CountSame(a[..|a| - 1], b[..|b| - 1], user, start);
    }
  }

  lemma {:induction false} RecentCoversWindow(rows: seq<Ticket>, user: nat, start: Time, now: Time)
    requires now <= start + HOUR
    ensures InHour(rows, user, start) <= Recent(rows, user, now)
  {
    if |rows| > 0 {
      RecentCoversWindow(rows[..|rows| - 1], user, start, now);
    }
  }

  lemma {:induction false} NoneBefore(rows: seq<Ticket>, user: nat, start: Time)
    requires forall k :: 0 <= k < |rows| ==> rows[k].user != user
    ensures InHour(rows, user, start) == 0
  {
    if |rows| > 0 {
      NoneBefore(rows[..|rows| - 1], user, start);
    }
  }

  lemma NewRowStaysLimited(rows: seq<Ticket>, user: nat, now: Time, lifetime: int)
    requires Limited(rows)
    requires forall start: Time :: start < now <= start + HOUR ==> InHour(rows, user, start) < LIMIT
    ensures Limited(WithNew(rows, user, now, lifetime))
  {
    var next := WithNew(rows, user, now, lifetime);
    assert next[..|next| - 1] == rows;
    forall u: nat, start: Time ensures InHour(next, u, start) <= LIMIT {
      assert InHour(rows, u, start) <= LIMIT;
      if u == user && start < now <= start + HOUR {
        assert InHour(rows, user, start) < LIMIT;
      }
    }
  }

  lemma SameOwnersLimited(a: seq<Ticket>, b: seq<Ticket>)
    requires Limited(a) && |a| == |b| && forall k :: 0 <= k < |a| ==> a[k].user == b[k].user && a[k].createdAt == b[k].createdAt
    ensures Limited(b)
  {
    forall user: nat, start: Time ensures InHour(b, user, start) <= LIMIT {
      CountSame(a, b, user, start);
      assert InHour(a, user, start) <= LIMIT;
    }
  }

  lemma CheckedRowStaysLimited(rows: seq<Ticket>, user: nat, now: Time, expiredToo: bool, lifetime: int)
    requires Limited(rows) && Recent(rows, user, now) < LIMIT
    ensures Limited(WithNew(Invalidated(rows, user, now, expiredToo), user, now, lifetime))
  {
    var marked := Invalidated(rows, user, now, expiredToo);
    SameOwnersLimited(rows, marked);
    forall start: Time | start < now <= start + HOUR ensures InHour(marked, user, start) < LIMIT {
      CountSame(rows, marked, user, start);
      RecentCoversWindow(rows, user, start, now);
    }
    NewRowStaysLimited(marked, user, now, lifetime);
  }

  lemma RegisterStaysLimited(rows: seq<Ticket>, user: nat, now: Time)
    requires Limited(rows) && forall k :: 0 <= k < |rows| ==> rows[k].user != user
    ensures Limited(RegisterCode(rows, user, now))
  {
    forall start: Time | start < now <= start + HOUR ensures InHour(rows, user, start) < LIMIT {
      NoneBefore(rows, user, start);
    }
    NewRowStaysLimited(rows, user, now, CODE_LIFETIME);
  }

  // ----- At most one live reset token -----

  predicate Live(t: Ticket, user: nat, now: Time) {
    t.user == user && t.usedAt.None? && t.expiresAt > now
  }

  ghost predicate OneLive(rows: seq<Ticket>, now: Time) {
    forall user: nat, j, k :: 0 <= j < k < |rows| && Live(rows[j], user, now) ==> !Live(rows[k], user, now)
  }

  lemma RequestLeavesOneLive(rows: seq<Ticket>, user: nat, now: Time)
    requires OneLive(rows, now)
    ensures OneLive(RequestReset(rows, user, now).rows, now)
    ensures var a := RequestReset(rows, user, now);
            a.verdict == Created ==> Live(a.rows[|rows|], user, now) && forall k :: 0 <= k < |rows| ==> !Live(a.rows[k], user, now)
  {
    var next := RequestReset(rows, user, now).rows;
    forall u: nat, j, k | 0 <= j < k < |next| && Live(next[j], u, now) ensures !Live(next[k], u, now) {
      if k < |rows| {
        assert Live(rows[j], u, now);
      }
    }
  }

  lemma LiveShrinks(rows: seq<Ticket>, early: Time, late: Time)
    requires OneLive(rows, early) && early <= late
    ensures OneLive(rows, late)
  {
    forall user: nat, j, k | 0 <= j < k < |rows| && Live(rows[j], user, late) ensures !Live(rows[k], user, late) {
      assert Live(rows[j], user, early) && !Live(rows[k], user, early);
    }
  }

  lemma ConsumingLeavesOneLive(rows: seq<Ticket>, k: nat, now: Time)
    requires OneLive(rows, now)
    ensures OneLive(Consumed(rows, k, now), now)
  {
    var next := Consumed(rows, k, now);
    forall user: nat, i, j | 0 <= i < j < |next| && Live(next[i], user, now) ensures !Live(next[j], user, now) {
      assert Live(rows[i], user, now);
    }
  }

  // ----- Runs -----

  datatype LimitCall =
    | CallRequestReset(user: nat)
    | CallUseReset(reset: nat)
    | CallRegister
    | CallResend(user: nat)
    | CallUseCode(code: nat)

  datatype LimitEvent = LimitEvent(at: Time, call: LimitCall)

  /** users: how many have registered; a registration creates the next one. */
  datatype Desk = Desk(users: nat, resets: seq<Ticket>, codes: seq<Ticket>)

  function Apply(d: Desk, e: LimitEvent): Desk {
    match e.call
    case CallRequestReset(user) => if user < d.users then d.(resets := RequestReset(d.resets, user, e.at).rows) else d
    case CallUseReset(reset) => d.(resets := Consumed(d.resets, reset, e.at))
    case CallRegister => d.(users := d.users + 1, codes := RegisterCode(d.codes, d.users, e.at))
    case CallResend(user) => if user < d.users then d.(codes := ResendCode(d.codes, user, e.at).rows) else d
    case CallUseCode(code) => d.(codes := Consumed(d.codes, code, e.at))
  }

  function Run(d: Desk, events: seq<LimitEvent>): Desk {
    if |events| == 0 then d else Apply(Run(d, events[..|events| - 1]), events[|events| - 1])
  }

  ghost predicate Chronological(start: Time, events: seq<LimitEvent>) {
    && (forall k :: 0 <= k < |events| ==> start <= events[k].at)
    && (forall j, k :: 0 <= j < k < |events| ==> events[j].at <= events[k].at)
  }

  function ClockAfter(start: Time, events: seq<LimitEvent>): Time {
    if |events| == 0 then start else events[|events| - 1].at
  }

  ghost predicate Kept(d: Desk, now: Time) {
    && Limited(d.resets) && Limited(d.codes)
    && OneLive(d.resets, now)
    && (forall k :: 0 <= k < |d.codes| ==> d.codes[k].user < d.users)
  }

  lemma ConsumedStaysLimited(rows: seq<Ticket>, k: nat, now: Time)
    requires Limited(rows)
    ensures Limited(Consumed(rows, k, now))
  {
    SameOwnersLimited(rows, Consumed(rows, k, now));
  }

  lemma OneCallKeeps(d: Desk, before: Time, e: LimitEvent)
    requires Kept(d, before) && before <= e.at
    ensures Kept(Apply(d, e), e.at)
  {
    LiveShrinks(d.resets, before, e.at);
    match e.call
    case CallRequestReset(user) =>
      RequestLeavesOneLive(d.resets, user, e.at);
      if Recent(d.resets, user, e.at) < LIMIT {
        CheckedRowStaysLimited(d.resets, user, e.at, false, RESET_LIFETIME);
      }
    case CallUseReset(reset) =>
      ConsumingLeavesOneLive(d.resets, reset, e.at);
      ConsumedStaysLimited(d.resets, reset, e.at);
    case CallRegister => RegisterStaysLimited(d.codes, d.users, e.at);
    case CallResend(user) =>
      if Recent(d.codes, user, e.at) < LIMIT {
        CheckedRowStaysLimited(d.codes, user, e.at, true, CODE_LIFETIME);
      }
    case CallUseCode(code) => ConsumedStaysLimited(d.codes, code, e.at);
  }

  /**
   Over any run with a clock that does not go back, no hour holds more than three reset tokens or three
   codes of one user, and at most one reset token of a user is usable at a time.
   */
  lemma {:induction false} LimitsHold(start: Time, events: seq<LimitEvent>)
    requires Chronological(start, events)
    ensures Kept(Run(Desk(0, [], []), events), ClockAfter(start, events))
  {
    if |events| > 0 {
      var last := |events| - 1;
      LimitsHold(start, events[..last]);
      OneCallKeeps(Run(Desk(0, [], []), events[..last]), ClockAfter(start, events[..last]), events[last]);
    }
  }

  /** The limit is reached: a fourth row at the very end of a closed hour is allowed, so the hour must be half open. */
  lemma ClosedHourHoldsFour(user: nat)
    ensures var rows := WithNew(WithNew(WithNew([], user, 0, RESET_LIFETIME), user, 1, RESET_LIFETIME), user, 2, RESET_LIFETIME);
            RequestReset(rows, user, HOUR).verdict == Created
  {
    var one := WithNew([], user, 0, RESET_LIFETIME);
    var two := WithNew(one, user, 1, RESET_LIFETIME);
    var three := WithNew(two, user, 2, RESET_LIFETIME);
    assert three[..2] == two && two[..1] == one && one[..0] == [];
    assert Recent(one, user, HOUR) == 0;
    assert Recent(two, user, HOUR) == 1;
  }

  // ----- When a row is created, and what it is -----

  /** The rows of a user that were created less than an hour ago. */
  function LastHour(rows: seq<Ticket>, user: nat, now: Time): set<nat> {
    set k: nat | k < |rows| && rows[k].user == user && now < rows[k].createdAt + 3_600_000
  }

  lemma {:induction false} RecentIsCardinality(rows: seq<Ticket>, user: nat, now: Time)
    ensures Recent(rows, user, now) == |LastHour(rows, user, now)|
  {
    if |rows| == 0 {
      assert LastHour(rows, user, now) == {};
    } else {
      var last := |rows| - 1;
      RecentIsCardinality(rows[..last], user, now);
      var front := LastHour(rows[..last], user, now);
      assert last !in front;
      if rows[last].user == user && rows[last].createdAt > now - HOUR {
        assert LastHour(rows, user, now) == front + {last};
      } else {
        assert LastHour(rows, user, now) == front;
      }
    }
  }

  /** What a creation does: earlier rows of the user that were still usable are used up now, and one row is appended. */
  ghost predicate Renewed(rows: seq<Ticket>, after: seq<Ticket>, user: nat, now: Time, minutes: int, expiredToo: bool) {
    && |after| == |rows| + 1
    && after[|rows|] == Ticket(user, now, now + minutes * 60_000, None)
    && forall k :: 0 <= k < |rows| ==>
         after[k] == if rows[k].user == user && rows[k].usedAt.None? && (expiredToo || rows[k].expiresAt > now)
                     then rows[k].(usedAt := Some(now)) else rows[k]
  }

  /** A reset token, valid for thirty minutes, is created exactly with fewer than three in the last hour; a code for fifteen. */
  lemma CreatedExactly(rows: seq<Ticket>, user: nat, now: Time)
    ensures var a := RequestReset(rows, user, now);
            if |LastHour(rows, user, now)| < 3 then a.verdict == Created && Renewed(rows, a.rows, user, now, 30, false)
            else a == Answer(rows, TooMany)
    ensures var a := ResendCode(rows, user, now);
            if |LastHour(rows, user, now)| < 3 then a.verdict == Created && Renewed(rows, a.rows, user, now, 15, true)
            else a == Answer(rows, TooMany)
  {
    RecentIsCardinality(rows, user, now);
  }
}
