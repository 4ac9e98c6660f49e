/**
 One raffle with its tickets, its dispute and its payout, and the lifecycle steps that touch only
 that raffle. A step answers with the new row, or with the reason the service rejects the call.
 */
module Raffles {
  import opened DisputeMath
  import opened Rounding
  import opened Tickets
  import opened Wrappers

  /** Milliseconds; a day is a fixed unit. */
  type Time = int

  const DAY := 86_400_000
  const PROTECTION_DAYS := 7

  datatype RaffleStatus = Active | SoldOut | Drawn | InDelivery | Finalised | Cancelled

  datatype DeliveryStatus = NotShipped | Shipped | Delivered | Disputed | Confirmed

  datatype DisputeStatus = Open | AwaitingSeller | InMediation | Resolved(decision: Decision)

  datatype PayoutStatus = Pending | Processing | Completed | Failed

  datatype Dispute = Dispute(
    reporter: nat,
    status: DisputeStatus,
    refund: int,
    sellerAmount: int,
    openedAt: Time,
    respondedAt: Option<Time>,
    resolvedAt: Option<Time>)

  /** accepted: the provider's payout id was recorded. */
  datatype Payout = Payout(net: int, status: PayoutStatus, scheduledFor: Option<Time>, accepted: bool)

  datatype Raffle = Raffle(
    seller: nat,
    total: nat,
    price: nat,
    deadline: Time,
    hidden: bool,
    status: RaffleStatus,
    winner: Option<nat>,
    drawnAt: Option<Time>,
    drawResult: Option<nat>,
    delivery: DeliveryStatus,
    shippedAt: Option<Time>,
    confirmedAt: Option<Time>,
    releasedAt: Option<Time>,
    tickets: seq<Ticket>,
    dispute: Option<Dispute>,
    payout: Option<Payout>)

  datatype Hold = AlreadyReleased | NotConfirmed | NoConfirmationDate | StillProtected | ActiveDispute

  datatype Rejection =
    | NotFound
    | Forbidden
    | WrongState
    | AlreadyConfirmed
    | NotShippedYet
    | AlreadyDisputed
    | AlreadyDrawn
    | NoPaidTickets
    | OwnRaffle
    | BadQuantity
    | OverBuyerLimit
    | OutOfStock
    | BadNumbers
    | BadAmount
    | BadPrice
    | BadDeadline
    | OnHold(hold: Hold)
    | PayoutNotPending
    | PayoutInProgress
    | NoProviderId
    | NoSellerAccount
    | ProviderRefused
    | AlreadyPaidOut
    | RefundTooLarge
    | NotApproved
    | StorageFault

  function Created(seller: nat, total: nat, price: nat, deadline: Time): Raffle {
    Raffle(seller, total, price, deadline, false, Active, None, None, None, NotShipped, None, None, None, [], None, None)
  }

  // ----- Predicates the services branch on -----

  predicate DisputeActive(r: Raffle) {
    r.dispute.Some? && !r.dispute.value.status.Resolved?
  }

  predicate DisputeRefunded(r: Raffle) {
    r.dispute.Some? && r.dispute.value.refund > 0
  }

  predicate PayoutStarted(r: Raffle) {
    r.payout.Some? && r.payout.value.status != Pending
  }

  /** A payout that holds money out of the seller's payable balance. */
  predicate PayoutCommitted(r: Raffle) {
    r.payout.Some? && (r.payout.value.status == Processing || r.payout.value.status == Completed)
  }

  /** Delivery confirmed with a date, seven days gone by, no active dispute, nothing released yet. */
  function ReleaseHold(r: Raffle, now: Time): Option<Hold> {
    if r.releasedAt.Some? then Some(AlreadyReleased)
    else if r.delivery != Confirmed then Some(NotConfirmed)
    else if r.confirmedAt.None? then Some(NoConfirmationDate)
    else if r.confirmedAt.value + PROTECTION_DAYS * DAY > now then Some(StillProtected)
    else if DisputeActive(r) then Some(ActiveDispute)
    else None
  }

  /** What the seller receives of a gross amount: the platform keeps a rate of it, no processing fee. */
  function NetOf(rate: real, gross: nat): int {
    RoundHalfUp(gross as real - gross as real * rate)
  }

  // ----- Lifecycle steps -----

  function Draw(r: Raffle, pick: nat, now: Time): Result<Raffle, Rejection> {
    if r.status != Active && r.status != SoldOut then Failure(WrongState)
    else if PaidCount(r.tickets) == 0 then Failure(NoPaidTickets)
    else if r.drawResult.Some? || r.winner.Some? then Failure(AlreadyDrawn)
    else if pick >= |r.tickets| || r.tickets[pick].refunded then Failure(NoPaidTickets)
    else Success(r.(status := Drawn, winner := Some(r.tickets[pick].buyer), drawnAt := Some(now), drawResult := Some(pick)))
  }

  function RejectWinner(r: Raffle): Result<Raffle, Rejection> {
    if r.status != Drawn then Failure(WrongState)
    else if r.winner.None? then Failure(WrongState)
    else Success(r.(status := Active, winner := None, drawnAt := None))
  }

  function Cancel(r: Raffle, user: nat): Result<Raffle, Rejection> {
    if r.seller != user then Failure(Forbidden)
    else if r.status != Active then Failure(WrongState)
    else Success(r.(status := Cancelled))
  }

  function Ship(r: Raffle, user: nat, now: Time): Result<Raffle, Rejection> {
    if r.seller != user then Failure(Forbidden)
    else if r.status != Drawn && r.status != InDelivery then Failure(WrongState)
    else if r.delivery != NotShipped then Failure(WrongState)
    else Success(r.(status := InDelivery, delivery := Shipped, shippedAt := Some(now)))
  }

  function Confirm(r: Raffle, user: nat, now: Time): Result<Raffle, Rejection> {
    if r.winner != Some(user) then Failure(Forbidden)
    else if r.delivery == Confirmed then Failure(AlreadyConfirmed)
    else if r.delivery != Shipped then Failure(NotShippedYet)
    else Success(r.(delivery := Confirmed, confirmedAt := Some(now), status := InDelivery))
  }

  function OpenDispute(r: Raffle, user: nat, now: Time): Result<Raffle, Rejection> {
    if r.winner != Some(user) then Failure(Forbidden)
    else if r.dispute.Some? then Failure(AlreadyDisputed)
    else if r.status != Drawn && !(r.status == InDelivery && r.delivery == Shipped) then Failure(WrongState)
    else Success(r.(delivery := Disputed, dispute := Some(Dispute(user, Open, 0, 0, now, None, None))))
  }

  function RespondDispute(r: Raffle, user: nat, now: Time): Result<Raffle, Rejection> {
    if r.dispute.None? then Failure(NotFound)
    else if r.seller != user then Failure(Forbidden)
    else
      var d := r.dispute.value;
      if d.status != Open && d.status != AwaitingSeller then Failure(WrongState)
      else Success(r.(dispute := Some(d.(status := InMediation, respondedAt := Some(now)))))
  }

  /** The 48-hour escalation looks only for disputes waiting for the seller. */
  predicate Escalates(r: Raffle, now: Time) {
    && r.dispute.Some?
    && r.dispute.value.status == AwaitingSeller
    && r.dispute.value.openedAt <= now - 2 * DAY
    && r.dispute.value.respondedAt.None?
  }

  function Escalate(r: Raffle, now: Time): Raffle {
    if Escalates(r, now) then r.(dispute := Some(r.dispute.value.(status := InMediation))) else r
  }

  function CloseDispute(r: Raffle, decision: Decision, split: Split, now: Time): Raffle
    requires r.dispute.Some?
  {
    r.(dispute := Some(r.dispute.value.(
                       status := Resolved(decision), refund := split.refund,
                       sellerAmount := split.seller, resolvedAt := Some(now))),
       delivery := if decision == ForSeller then Confirmed else Disputed,
       status := Finalised)
  }

  // ----- Payout rows -----

  function WithPayout(rate: real, r: Raffle): Raffle {
    if r.payout.Some? then r
    else r.(payout := Some(Payout(NetOf(rate, PaidTotal(r.tickets)), Pending, None, false)))
  }

  function Scheduled(r: Raffle, at: Time): Raffle
    requires r.payout.Some?
  {
    r.(payout := Some(r.payout.value.(scheduledFor := Some(at))))
  }

  function PayoutSet(r: Raffle, status: PayoutStatus): Raffle
    requires r.payout.Some?
  {
    r.(payout := Some(r.payout.value.(status := status)))
  }

  function PayoutAccepted(r: Raffle): Raffle
    requires r.payout.Some?
  {
    r.(payout := Some(r.payout.value.(accepted := true)))
  }

  function PayoutDone(r: Raffle, now: Time): Raffle
    requires r.payout.Some?
  {
    r.(payout := Some(r.payout.value.(status := Completed, accepted := true)),
       releasedAt := Some(now), status := Finalised)
  }

  /** The weekly auto-release applies to drawn, undisputed, unreleased raffles a week after the draw. */
  predicate AutoReleases(r: Raffle, now: Time) {
    && r.status == Drawn
    && r.drawnAt.Some? && r.drawnAt.value <= now - PROTECTION_DAYS * DAY
    && (r.delivery == NotShipped || r.delivery == Shipped || r.delivery == Delivered)
    && r.releasedAt.None?
    && (r.dispute.Some? ==> r.dispute.value.resolvedAt.Some?)
  }

  function AutoConfirm(r: Raffle, now: Time): Raffle {
    r.(status := InDelivery, delivery := Confirmed, confirmedAt := Some(now))
  }

  predicate Due(r: Raffle, now: Time) {
    && r.payout.Some?
    && r.payout.value.status == Pending
    && r.payout.value.scheduledFor.Some?
    && r.payout.value.scheduledFor.value <= now
  }
}
