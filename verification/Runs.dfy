/**
 Runs of the market: any number of calls, in any order, by anybody, with any outcome of the payment
 provider and of the storage, as long as the clock does not go back. The invariant holds in every state
 a run reaches, and every row only moves forward.
 */
module Runs {
  import opened DisputeMath
  import opened History
  import opened LifecycleKeeps
  import opened Market
  import opened MarketInvariant
  import opened PayoutKeeps
  import opened PromotionPricing
  import opened PurchaseKeeps
  import opened RefundKeeps
  import opened Rounds
  import opened StepsFollow
  import opened TopUpKeeps
  import opened TopUps
  import opened Wrappers

  datatype CatalogueCall =
    | SignUp
    | Publish(seller: nat, total: nat, price: nat, deadline: Time)
    | RelaunchCancelled(user: nat, price: nat, deadline: Time)
    | NewPrice(user: nat, price: nat)
    | NewDeadline(user: nat, deadline: Time)
    | Visibility(hidden: bool)

  datatype RaffleCall =
    | Purchase(buyer: nat, request: Request, bonus: Option<BonusTerms>)
    | Completion(pick: nat, fault: Fault)
    | AdminDraw(pick: nat, fault: Fault)
    | Expiry(pick: nat, fault: Fault)
    | WinnerRejected
    | CancelledBy(user: nat)
    | ShippedBy(user: nat)
    | ConfirmedBy(user: nat, fault: Fault)

  datatype DisputeCall =
    | OpenedBy(user: nat)
    | AnsweredBy(user: nat)
    | Escalation
    | Resolution(decision: Decision, refund: Option<real>, seller: Option<real>)
    | Timeout

  datatype PayoutCall =
    | PayoutAttempt(outcome: Outcome)
    | WeeklyRelease(outcome: Outcome)
    | ProviderSync(outcome: Outcome)

  datatype TopUpCall =
    | Start(user: nat, provider: Provider, reference: nat, orderId: Option<nat>, amount: real)
    | Hook(kind: nat, notice: Notice, found: Option<nat>)
    | Sync(notice: Notice, found: Option<nat>)
    | MockDo(session: nat, action: MockAction)
    | GiveBack(session: nat, part: Option<real>, providerOk: bool)

  /** raffle: the row a call is about. */
  datatype Call =
    | OnCatalogue(raffle: nat, catalogue: CatalogueCall)
    | OnRaffleRow(raffle: nat, step: RaffleCall)
    | OnDispute(raffle: nat, dispute: DisputeCall)
    | OnPayoutRow(raffle: nat, payout: PayoutCall)
    | OnTopUp(topUp: TopUpCall)

  datatype Event = Event(at: Time, call: Call)

  function ApplyCatalogue(d: Db, i: nat, c: CatalogueCall, now: Time): Db {
    match c
    case SignUp => OpenWallet(d).db
    case Publish(seller, total, price, deadline) => CreateRaffle(d, seller, total, price, deadline).db
    case RelaunchCancelled(user, price, deadline) => Relaunch(d, i, user, price, deadline).db
    case NewPrice(user, price) => UpdatePrice(d, i, user, price).db
    case NewDeadline(user, deadline) => ExtendDeadline(d, i, user, deadline, now).db
    case Visibility(hidden) => SetHidden(d, i, hidden).db
  }

  /** The random source only hands out admissible indexes; a purchase with others does not happen. */
  ghost function ApplyRaffle(d: Db, i: nat, c: RaffleCall, now: Time): Db {
    match c
    case Purchase(buyer, request, bonus) =>
      if i < |d.raffles| && !DrawsFit(d.raffles[i], buyer, request) then d else Buy(d, i, buyer, request, bonus).db
    case Completion(pick, fault) => CheckCompletion(d, i, pick, now, fault).db
    case AdminDraw(pick, fault) => SelectWinner(d, i, pick, now, fault).db
    case Expiry(pick, fault) => ProcessExpired(d, i, pick, now, fault).db
    case WinnerRejected => RejectWinnerStep(d, i).db
    case CancelledBy(user) => CancelStep(d, i, user).db
    case ShippedBy(user) => ShipStep(d, i, user, now).db
    case ConfirmedBy(user, fault) => ConfirmStep(d, i, user, now, fault).db
  }

  function ApplyDispute(d: Db, i: nat, c: DisputeCall, now: Time): Db {
    match c
    case OpenedBy(user) => OpenDisputeStep(d, i, user, now).db
    case AnsweredBy(user) => RespondStep(d, i, user, now).db
    case Escalation => EscalateStep(d, i, now).db
    case Resolution(decision, refund, seller) => Resolve(d, i, decision, refund, seller, now).db
    case Timeout => AutoRefund(d, i, now).db
  }

  function ApplyPayout(d: Db, i: nat, c: PayoutCall, now: Time): Db {
    match c
    case PayoutAttempt(outcome) => ProcessPayout(d, i, now, outcome).db
    case WeeklyRelease(outcome) => AutoRelease(d, i, now, outcome).db
    case ProviderSync(outcome) => SyncPayout(d, i, now, outcome).db
  }

  function ApplyTopUp(d: Db, c: TopUpCall, now: Time): Db {
    match c
    case Start(user, provider, reference, orderId, amount) => OpenSession(d, user, provider, reference, orderId, amount).db
    case Hook(kind, notice, found) => Webhook(d, kind, notice, found, now).db
    case Sync(notice, found) => SyncTopUp(d, notice, found, now).db
    case MockDo(session, action) => MockStep(d, session, action, now).db
    case GiveBack(session, amount, providerOk) => RefundTopUp(d, session, amount, providerOk).db
  }

  ghost function Apply(d: Db, e: Event): Db {
    match e.call
    case OnCatalogue(i, c) => ApplyCatalogue(d, i, c, e.at)
    case OnRaffleRow(i, c) => ApplyRaffle(d, i, c, e.at)
    case OnDispute(i, c) => ApplyDispute(d, i, c, e.at)
    case OnPayoutRow(i, c) => ApplyPayout(d, i, c, e.at)
    case OnTopUp(c) => ApplyTopUp(d, c, e.at)
  }

  ghost function Run(d: Db, events: seq<Event>): Db {
    Fold(d, |events|, Script(events))
  }

  ghost function Script(events: seq<Event>): (Db, nat) -> Db {
    Follow(events, Applying())
  }

  ghost function Applying(): (Db, Event) -> Db {
    (d: Db, e: Event) => Apply(d, e)
  }

  /** Event times never go back, and none is before the start. */
  ghost predicate Chronological(start: Time, events: seq<Event>) {
    && (forall k :: 0 <= k < |events| ==> start <= events[k].at)
    && (forall j, k :: 0 <= j < k < |events| ==> events[j].at <= events[k].at)
  }

  function ClockAfter(start: Time, events: seq<Event>): Time {
    if |events| == 0 then start else events[|events| - 1].at
  }

  /** A state a run can be in, at a given time. */
  ghost predicate Healthy(d: Db, clock: Time) {
    Inv(d) && PayoutsRipe(d, clock)
  }

  // ----- One call -----

  ghost predicate GoodStep(before: Db, after: Db, now: Time) {
    Inv(after) && DbFollows(before, after, now)
  }

  lemma OfferStep(d: Db, i: nat, c: CatalogueCall, now: Time)
    requires Inv(d) && (c.Publish? || c.RelaunchCancelled?)
    ensures GoodStep(d, ApplyCatalogue(d, i, c, now), now)
  {
    match c
    case Publish(seller, total, price, deadline) =>
      CreateRaffleKeeps(d, seller, total, price, deadline);
      CreateFollows(d, seller, total, price, deadline, now);
    case RelaunchCancelled(user, price, deadline) =>
      RelaunchKeeps(d, i, user, price, deadline);
      RelaunchFollows(d, i, user, price, deadline, now);
  }

  lemma CatalogueCallIs(d: Db, i: nat, c: CatalogueCall, now: Time)
    ensures var e := ApplyCatalogue(d, i, c, now);
            match c
            case SignUp => e == OpenWallet(d).db
            case Publish(seller, total, price, deadline) => e == CreateRaffle(d, seller, total, price, deadline).db
            case RelaunchCancelled(user, price, deadline) => e == Relaunch(d, i, user, price, deadline).db
            case NewPrice(user, price) => e == UpdatePrice(d, i, user, price).db
            case NewDeadline(user, deadline) => e == ExtendDeadline(d, i, user, deadline, now).db
            case Visibility(hidden) => e == SetHidden(d, i, hidden).db
  {
  }

  lemma ChangeStep(d: Db, i: nat, c: CatalogueCall, now: Time)
    requires Inv(d) && (c.NewPrice? || c.NewDeadline? || c.Visibility?)
    ensures GoodStep(d, ApplyCatalogue(d, i, c, now), now)
  {
    CatalogueCallIs(d, i, c, now);
    match c
    case NewPrice(user, price) =>
      UpdatePriceKeeps(d, i, user, price);
      UpdatePriceFollows(d, i, user, price, now);
    case NewDeadline(user, deadline) =>
      ExtendDeadlineKeeps(d, i, user, deadline, now);
      ExtendDeadlineFollows(d, i, user, deadline, now);
    case Visibility(hidden) =>
      SetHiddenKeeps(d, i, hidden);
      SetHiddenFollows(d, i, hidden, now);
  }

  lemma CatalogueStep(d: Db, i: nat, c: CatalogueCall, now: Time)
    requires Inv(d)
    ensures GoodStep(d, ApplyCatalogue(d, i, c, now), now)
  {
    CatalogueCallIs(d, i, c, now);
    if c.SignUp? {
      AppendWallet(d);
    } else if c.Publish? || c.RelaunchCancelled? {
      OfferStep(d, i, c, now);
    } else {
      ChangeStep(d, i, c, now);
    }
  }

  lemma PurchaseStep(d: Db, i: nat, buyer: nat, request: Request, bonus: Option<BonusTerms>, now: Time)
    requires Inv(d)
    ensures GoodStep(d, ApplyRaffle(d, i, Purchase(buyer, request, bonus), now), now)
  {
    Unchanged(d, now);
    if i < |d.raffles| ==> DrawsFit(d.raffles[i], buyer, request) {
      BuyKeeps(d, i, buyer, request, bonus);
      BuyFollows(d, i, buyer, request, bonus, now);
    }
  }

  lemma DrawStep(d: Db, i: nat, c: RaffleCall, now: Time)
    requires Inv(d) && (c.Completion? || c.AdminDraw? || c.Expiry?)
    ensures GoodStep(d, ApplyRaffle(d, i, c, now), now)
  {
    match c
    case Completion(pick, fault) =>
      CheckCompletionKeeps(d, i, pick, now, fault);
      CheckCompletionFollows(d, i, pick, now, fault);
    case AdminDraw(pick, fault) =>
      SelectWinnerKeeps(d, i, pick, now, fault);
      SelectWinnerFollows(d, i, pick, now, fault);
    case Expiry(pick, fault) =>
      ProcessExpiredKeeps(d, i, pick, now, fault);
      ProcessExpiredFollows(d, i, pick, now, fault);
  }

  lemma RaffleStep(d: Db, i: nat, c: RaffleCall, now: Time)
    requires Inv(d)
    ensures GoodStep(d, ApplyRaffle(d, i, c, now), now)
  {
    match c
    case Purchase(buyer, request, bonus) => PurchaseStep(d, i, buyer, request, bonus, now);
    case WinnerRejected =>
      RejectWinnerStepKeeps(d, i);
      RejectWinnerFollows(d, i, now);
    case CancelledBy(user) =>
      CancelStepKeeps(d, i, user);
      CancelFollows(d, i, user, now);
    case ShippedBy(user) =>
      ShipStepKeeps(d, i, user, now);
      ShipFollows(d, i, user, now);
    case ConfirmedBy(user, fault) =>
      ConfirmStepKeeps(d, i, user, now, fault);
      ConfirmFollows(d, i, user, now, fault);
    case _ => DrawStep(d, i, c, now);
  }

  lemma DisputeStep(d: Db, i: nat, c: DisputeCall, now: Time)
    requires Inv(d)
    ensures GoodStep(d, ApplyDispute(d, i, c, now), now)
  {
    match c
    case OpenedBy(user) =>
      OpenDisputeStepKeeps(d, i, user, now);
      OpenDisputeFollows(d, i, user, now);
    case AnsweredBy(user) =>
      RespondStepKeeps(d, i, user, now);
      RespondFollows(d, i, user, now);
    case Escalation =>
      EscalationNeverFires(d, i, now);
      Unchanged(d, now);
    case Resolution(decision, refund, seller) =>
      ResolveKeeps(d, i, decision, refund, seller, now);
      ResolveFollows(d, i, decision, refund, seller, now);
    case Timeout =>
      AutoRefundKeeps(d, i, now);
      AutoRefundFollows(d, i, now);
  }

  lemma PayoutStep(d: Db, i: nat, c: PayoutCall, now: Time)
    requires Inv(d) && PayoutsRipe(d, now)
    ensures GoodStep(d, ApplyPayout(d, i, c, now), now)
  {
    match c
    case PayoutAttempt(outcome) =>
      ProcessPayoutKeeps(d, i, now, outcome);
      ProcessPayoutFollows(d, i, now, outcome);
    case WeeklyRelease(outcome) =>
      AutoReleaseKeeps(d, i, now, outcome);
      AutoReleaseFollows(d, i, now, outcome);
    case ProviderSync(outcome) =>
      SyncPayoutKeeps(d, i, now, outcome);
      SyncPayoutFollows(d, i, now, outcome);
  }

  lemma NoticeStep(d: Db, c: TopUpCall, now: Time)
    requires Inv(d) && (c.Hook? || c.Sync?)
    ensures GoodStep(d, ApplyTopUp(d, c, now), now)
  {
    match c
    case Hook(kind, notice, found) =>
      WebhookKeeps(d, kind, notice, found, now);
      WebhookFollows(d, kind, notice, found, now);
    case Sync(notice, found) =>
      SyncTopUpKeeps(d, notice, found, now);
      SyncTopUpFollows(d, notice, found, now);
  }

  lemma TopUpStep(d: Db, c: TopUpCall, now: Time)
    requires Inv(d)
    ensures GoodStep(d, ApplyTopUp(d, c, now), now)
  {
    match c
    case Start(user, provider, reference, orderId, amount) =>
      OpenSessionKeeps(d, user, provider, reference, orderId, amount);
      OpenSessionFollows(d, user, provider, reference, orderId, amount, now);
    case MockDo(session, action) =>
      MockStepKeeps(d, session, action, now);
      MockFollows(d, session, action, now);
    case GiveBack(session, amount, providerOk) =>
      RefundTopUpKeeps(d, session, amount, providerOk);
      RefundTopUpFollows(d, session, amount, providerOk, now);
    case _ => NoticeStep(d, c, now);
  }

  lemma OneCall(d: Db, e: Event)
    requires Inv(d) && PayoutsRipe(d, e.at)
    ensures GoodStep(d, Apply(d, e), e.at)
  {
    match e.call
    case OnCatalogue(i, c) => OneCatalogueCall(d, e);
    case OnRaffleRow(i, c) => OneRaffleCall(d, e);
    case OnDispute(i, c) => OneDisputeCall(d, e);
    case OnPayoutRow(i, c) => OnePayoutCall(d, e);
    case OnTopUp(c) => OneTopUpCall(d, e);
  }

  lemma CallIs(d: Db, e: Event)
    ensures match e.call
            case OnCatalogue(i, c) => Apply(d, e) == ApplyCatalogue(d, i, c, e.at)
            case OnRaffleRow(i, c) => Apply(d, e) == ApplyRaffle(d, i, c, e.at)
            case OnDispute(i, c) => Apply(d, e) == ApplyDispute(d, i, c, e.at)
            case OnPayoutRow(i, c) => Apply(d, e) == ApplyPayout(d, i, c, e.at)
            case OnTopUp(c) => Apply(d, e) == ApplyTopUp(d, c, e.at)
  {
  }

  lemma OneCatalogueCall(d: Db, e: Event)
    requires Inv(d) && e.call.OnCatalogue?
    ensures GoodStep(d, Apply(d, e), e.at)
  {
    CallIs(d, e);
    CatalogueStep(d, e.call.raffle, e.call.catalogue, e.at);
  }

  lemma OneRaffleCall(d: Db, e: Event)
    requires Inv(d) && e.call.OnRaffleRow?
    ensures GoodStep(d, Apply(d, e), e.at)
  {
    CallIs(d, e);
    RaffleStep(d, e.call.raffle, e.call.step, e.at);
  }

  lemma OneDisputeCall(d: Db, e: Event)
    requires Inv(d) && e.call.OnDispute?
    ensures GoodStep(d, Apply(d, e), e.at)
  {
    CallIs(d, e);
    DisputeStep(d, e.call.raffle, e.call.dispute, e.at);
  }

  lemma OnePayoutCall(d: Db, e: Event)
    requires Inv(d) && e.call.OnPayoutRow? && PayoutsRipe(d, e.at)
    ensures GoodStep(d, Apply(d, e), e.at)
  {
    CallIs(d, e);
    PayoutStep(d, e.call.raffle, e.call.payout, e.at);
  }

  lemma OneTopUpCall(d: Db, e: Event)
    requires Inv(d) && e.call.OnTopUp?
    ensures GoodStep(d, Apply(d, e), e.at)
  {
    CallIs(d, e);
    TopUpStep(d, e.call.topUp, e.at);
  }


  // ----- Whole runs -----

  lemma RipeLater(d: Db, early: Time, late: Time)
    requires PayoutsRipe(d, early) && early <= late
    ensures PayoutsRipe(d, late)
  {
  }

  /** Whatever happens from a healthy state leads to a healthy state, and only moves rows forward. */
  lemma RunsStayHealthy(d: Db, start: Time, events: seq<Event>)
    requires Healthy(d, start) && Chronological(start, events)
    ensures Healthy(Run(d, events), ClockAfter(start, events))
    ensures DbLater(d, Run(d, events))
  {
    Unchanged(d, start);
    var good := (e: Db, k: nat) => Reaches(d, start, events, e, k);
    ScriptKeeps(d, start, events, good);
    assert events[..|events|] == events;
  }

  ghost predicate Reaches(d: Db, start: Time, events: seq<Event>, e: Db, k: nat) {
    k <= |events| && OnTheWay(d, e, ClockAfter(start, events[..k]))
  }

  lemma ScriptKeeps(d: Db, start: Time, events: seq<Event>, good: (Db, nat) -> bool)
    requires Chronological(start, events)
    requires forall e: Db, k: nat :: good(e, k) == Reaches(d, start, events, e, k)
    requires good(d, 0)
    ensures good(Fold(d, |events|, Script(events)), |events|)
  {
    forall e: Db, k: nat | k < |events| && good(e, k) ensures good(Script(events)(e, k), k + 1) {
      ScriptStep(d, e, start, events, k);
    }
    FoldInduction(d, |events|, Script(events), good);
  }

  lemma ScriptStep(d: Db, mid: Db, start: Time, events: seq<Event>, k: nat)
    requires k < |events| && Chronological(start, events)
    requires OnTheWay(d, mid, ClockAfter(start, events[..k]))
    ensures OnTheWay(d, Script(events)(mid, k), ClockAfter(start, events[..k + 1]))
  {
    NextOnTheWay(d, mid, ClockAfter(start, events[..k]), events[k]);
  }

  ghost predicate OnTheWay(d: Db, e: Db, clock: Time) {
    Healthy(e, clock) && DbLater(d, e)
  }

  lemma NextOnTheWay(d: Db, mid: Db, clock: Time, e: Event)
    requires OnTheWay(d, mid, clock) && clock <= e.at
    ensures OnTheWay(d, Apply(mid, e), e.at)
  {
    RipeLater(mid, clock, e.at);
    OneCall(mid, e);
    DbLaterTwice(d, mid, Apply(mid, e));
  }

  lemma StartHealthy(config: Config, start: Time)
    ensures Healthy(Initial(config), start)
  {
    InitialInv(config);
  }

  /** A state reached from an empty market by some run that ended at this time. */
  ghost predicate Reached(d: Db, clock: Time) {
    exists config: Config, start: Time, events: seq<Event> {:trigger ReachedBy(d, clock, config, start, events)} ::
      ReachedBy(d, clock, config, start, events)
  }

  ghost predicate ReachedBy(d: Db, clock: Time, config: Config, start: Time, events: seq<Event>) {
    Chronological(start, events) && clock == ClockAfter(start, events) && d == Run(Initial(config), events)
  }

  /** The invariant holds in every reachable state. */
  lemma ReachedHealthy(d: Db, clock: Time)
    requires Reached(d, clock)
    ensures Healthy(d, clock)
  {
    var config, start, events :| ReachedBy(d, clock, config, start, events);
    StartHealthy(config, start);
    RunsStayHealthy(Initial(config), start, events);
  }

  /** Continuing a run reaches a reachable state. */
  lemma ReachedOn(d: Db, clock: Time, more: seq<Event>)
    requires Reached(d, clock) && Chronological(clock, more)
    ensures Reached(Run(d, more), ClockAfter(clock, more))
  {
    var config, start, events :| ReachedBy(d, clock, config, start, events);
    RunConcat(Initial(config), events, more);
    ChronologicalConcat(start, events, more);
    assert ReachedBy(Run(d, more), ClockAfter(clock, more), config, start, events + more);
  }

  lemma RunConcat(d: Db, a: seq<Event>, b: seq<Event>)
    ensures Run(d, a + b) == Run(Run(d, a), b)
  {
    FollowConcat(d, a, b, Applying());
  }

  lemma ChronologicalConcat(start: Time, a: seq<Event>, b: seq<Event>)
    requires Chronological(start, a) && Chronological(ClockAfter(start, a), b)
    ensures Chronological(start, a + b) && ClockAfter(start, a + b) == ClockAfter(ClockAfter(start, a), b)
  {
    var all := a + b;
    forall k | 0 <= k < |all| ensures start <= all[k].at {
      if k >= |a| {
        assert ClockAfter(start, a) <= b[k - |a|].at;
      }
    }
    forall j, k | 0 <= j < k < |all| ensures all[j].at <= all[k].at {
      if j < |a| <= k {
        assert ClockAfter(start, a) <= b[k - |a|].at;
        assert j == |a| - 1 || a[j].at <= a[|a| - 1].at;
      } else if |a| <= j {
        assert b[j - |a|].at <= b[k - |a|].at;
      }
    }
  }
}
