/** The global random-ticket pack: five paid tickets grant one more, ten grant two. */
module PackRule {
  import opened Wrappers

  datatype PurchaseMode = Random | ChooseNumbers

  datatype Ineligibility = InsufficientStock | BuyerLimit

  datatype PackEvaluation = PackEvaluation(
    baseQuantity: int,
    bonusQuantity: int,
    grantedQuantity: int,
    packApplied: bool,
    reason: Option<Ineligibility>)

  function BonusFor(requested: int): nat {
    if requested == 5 then 1 else if requested == 10 then 2 else 0
  }

  function Evaluate(mode: PurchaseMode, requested: int, availableTickets: int, remainingAllowed: int): PackEvaluation {
    var bonus := if mode == Random then BonusFor(requested) else 0;
    if bonus == 0 then PackEvaluation(requested, 0, requested, false, None)
    else
      var granted := requested + bonus;
      if granted > availableTickets then PackEvaluation(requested, 0, requested, false, Some(InsufficientStock))
      else if granted > remainingAllowed then PackEvaluation(requested, 0, requested, false, Some(BuyerLimit))
      else PackEvaluation(requested, bonus, granted, true, None)
  }

  /** The grants on offer: what was asked for, and for random purchases of five or ten one or two more. */
  predicate Offered(mode: PurchaseMode, requested: int, granted: int) {
    || granted == requested
    || (mode == Random && requested == 5 && granted == 6)
    || (mode == Random && requested == 10 && granted == 12)
  }

  /** Of the grants on offer, the largest that fits both the stock and the buyer's allowance is given. */
  lemma GrantIsLargestAllowed(mode: PurchaseMode, requested: int, available: int, remaining: int, g: int)
    requires requested <= available && requested <= remaining
    ensures var e := Evaluate(mode, requested, available, remaining);
            && Offered(mode, requested, e.grantedQuantity)
            && e.grantedQuantity <= available && e.grantedQuantity <= remaining
            && (Offered(mode, requested, g) && g <= available && g <= remaining ==> g <= e.grantedQuantity)
            && e.grantedQuantity == e.baseQuantity + e.bonusQuantity && e.baseQuantity == requested
            && (e.packApplied <==> e.grantedQuantity > requested)
            && (Offered(mode, requested, g) && requested < g ==>
                  && (e.reason == Some(InsufficientStock) <==> available < g)
                  && (e.reason == Some(BuyerLimit) <==> remaining < g <= available))
  {
  }
}
