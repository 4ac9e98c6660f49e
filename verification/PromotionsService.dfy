/** The promotion service as it changes the stored grants, redemptions, posts and settlements. */
module PromotionsService {
  import opened PromotionPricing
  import opened PromotionScore
  import opened Promotions
  import opened Rounding
  import opened Rounds
  import opened Wrappers

  class PromotionBureau {
    const tiers: Option<seq<Tier>>
    const minCharge: int
    var grants: seq<Grant>
    var redemptions: seq<Redemption>
    var reversals: seq<Reversal>
    var posts: seq<Post>
    var settlements: seq<Settlement>

    constructor (tiers: Option<seq<Tier>>, minCharge: int)
      ensures View() == Opening(tiers, minCharge)
    {
      this.tiers, this.minCharge := tiers, minCharge;
      grants, redemptions, reversals, posts, settlements := [], [], [], [], [];
    }

    function View(): Desk
      reads this
    {
      Desk(tiers, minCharge, grants, redemptions, reversals, posts, settlements)
    }

    /** The discount, capped and leaving the minimum charge, and what is left to pay. */
    method BuildBonusPreview(g: Grant, gross: int) returns (preview: Result<Preview, PricingError>)
      ensures preview == BuildPreview(TermsOf(View(), g), gross)
    {
      var uncapped := RoundHalfUp(gross as real * g.percent / 100.0);
      var allowed := if gross - minCharge > 0 then gross - minCharge else 0;
      var discount := uncapped;
      if g.cap < discount {
        discount := g.cap;
      }
      if allowed < discount {
        discount := allowed;
      }
      if gross <= minCharge {
        return Failure(PurchaseTooSmall);
      }
      return Success(Preview(gross, discount, gross - discount));
    }

    method ReserveBonusForCheckout(grant: Option<nat>, c: Checkout, now: Time) returns (error: Option<Refusal>)
      modifies this
      ensures Answer(View(), error) == Reserve(old(View()), grant, c, now)
    {
      if grant.None? {
        return None;
      }
      if c.seller == c.buyer {
        return Some(OwnRaffle);
      }
      if grant.value >= |grants| || !Usable(grants[grant.value], c.buyer, now) {
        return Some(GrantUnavailable);
      }
      var g := grants[grant.value];
      var preview := BuildBonusPreview(g, c.gross);
      if preview.Failure? {
        return Some(TooSmall);
      }
      grants := grants[grant.value := g.(status := Reserved)];
      redemptions := redemptions + [Redemption(grant.value, c.buyer, c.raffle, c.reservation, preview.value.gross,
                                               preview.value.discount, preview.value.charged, Held, None, None)];
      return None;
    }

    /** found: the held redemption of this reservation and grant, if there is one. */
    method MarkRedemptionUsedByReservation(reservation: Option<nat>, grant: Option<nat>, purchase: nat, now: Time)
      returns (found: Option<nat>)
      modifies this
      ensures View() == MarkUsed(old(View()), found, reservation, grant, purchase, now)
      ensures found.None? && reservation.Some? && grant.Some? ==>
                forall k: nat :: !Awaits(old(View()), k, reservation.value, grant.value)
      ensures found.Some? ==> reservation.Some? && grant.Some?
                              && Awaits(old(View()), found.value, reservation.value, grant.value)
    {
      found := None;
      if reservation.None? || grant.None? {
        return;
      }
      var k := 0;
      while k < |redemptions|
        invariant 0 <= k <= |redemptions|
        invariant forall j: nat :: j < k ==> !Awaits(View(), j, reservation.value, grant.value)
      {
        var r := redemptions[k];
        if r.reservation == reservation.value && r.grant == grant.value && r.status == Held {
          found := Some(k);
          if r.grant < |grants| {
            redemptions := redemptions[k := r.(status := Consumed, purchase := Some(purchase), resolvedAt := Some(now))];
            grants := grants[r.grant := grants[r.grant].(status := Used, usedAt := Some(now))];
          }
          return;
        }
        k := k + 1;
      }
    }

    method ReleaseReservedRedemptionByReservation(reservation: nat, now: Time)
      modifies this
      ensures View() == Release(old(View()), reservation, now)
    {
      ghost var start := View();
      var listed := redemptions;
      var k := 0;
      while k < |listed|
        invariant 0 <= k <= |listed|
        invariant View() == Fold(start, k, ReleaseListed(start, reservation, now))
      {
        if listed[k].reservation == reservation && listed[k].status == Held {
          FreeHeld(k, now);
        }
        k := k + 1;
      }
    }

    /** One redemption is released and its grant is available again: one transaction. */
    method FreeHeld(k: nat, now: Time)
      modifies this
      ensures View() == ReleaseOne(old(View()), k, now)
    {
      if k >= |redemptions| || redemptions[k].grant >= |grants| {
        return;
      }
      var r := redemptions[k];
      redemptions := redemptions[k := r.(status := Released, resolvedAt := Some(now))];
      grants := grants[r.grant := grants[r.grant].(status := Available)];
    }

    method ReinstateRedemptionByPurchaseReference(purchase: nat, refund: Option<real>, now: Time)
      modifies this
      ensures View() == Reinstate(old(View()), purchase, refund, now)
    {
      ghost var start := View();
      var listed := redemptions;
      var k := 0;
      while k < |listed|
        invariant 0 <= k <= |listed|
        invariant View() == Fold(start, k, ReverseListed(start, purchase, refund, now))
      {
        if listed[k].purchase == Some(purchase) && listed[k].status == Consumed {
          var normalized := if refund.Some? && refund.value > 0.0 then Some(RoundHalfUp(refund.value)) else None;
          if normalized.None? || normalized.value >= listed[k].charged - 1 {
            ReverseConsumed(k, now);
          }
        }
        k := k + 1;
      }
    }

    /** One redemption is reversed, its grant is available again and the reversal is on record: one transaction. */
    method ReverseConsumed(k: nat, now: Time)
      modifies this
      ensures View() == ReverseOne(old(View()), k, now)
    {
      if k >= |redemptions| || redemptions[k].grant >= |grants| {
        return;
      }
      var r := redemptions[k];
      redemptions := redemptions[k := r.(status := Reversed, resolvedAt := Some(now))];
      grants := grants[r.grant := grants[r.grant].(status := Available, usedAt := None)];
      reversals := reversals + [Reversal(k, r.buyer, r.raffle, r.discount, r.gross, r.charged)];
    }

    // ----- Posts -----

    /** seen: the parsed page, or nothing when loading or parsing it failed. */
    method ValidateSocialPromotionPost(p: nat, seen: Option<Snapshot>) returns (error: Option<Refusal>)
      modifies this
      ensures Answer(View(), error) == Validate(old(View()), p, seen)
    {
      if p >= |posts| {
        return Some(NoSuchPost);
      }
      if seen.None? {
        var nothing := Snapshot(false, false, Metrics(None, None, None, None, 0, 0, 0));
        posts := posts[p := posts[p].(latest := Some(nothing), status := TechnicalReview)];
        return None;
      }
      var status := Validated;
      if !seen.value.accessible {
        status := Disqualified;
      } else if !seen.value.tokenPresent {
        status := Disqualified;
      }
      posts := posts[p := posts[p].(latest := seen, status := status)];
      return None;
    }

    method RetryTechnicalReview(p: nat) returns (error: Option<Refusal>)
      modifies this
      ensures Answer(View(), error) == Retry(old(View()), p)
    {
      if p >= |posts| {
        return Some(NoSuchPost);
      }
      posts := posts[p := posts[p].(status := PendingValidation)];
      return None;
    }

    method FindSettlement(p: nat) returns (known: bool)
      ensures known == HasSettlement(View(), p)
    {
      var j := 0;
      while j < |settlements|
        invariant 0 <= j <= |settlements|
        invariant forall i :: 0 <= i < j ==> settlements[i].post != p
      {
        if settlements[j].post == p {
          return true;
        }
        j := j + 1;
      }
      return false;
    }

    method FindTier(score: nat) returns (tier: Option<Tier>)
      ensures tier == TierAt(tiers, score)
    {
      var candidates := TiersInForce(tiers);
      var k := 0;
      while k < |candidates|
        invariant 0 <= k <= |candidates|
        invariant FirstReached(candidates, score) == FirstReached(candidates[k..], score)
      {
        if score as real >= candidates[k].minScore {
          return Some(candidates[k]);
        }
        assert candidates[k..][1..] == candidates[k + 1..];
        k := k + 1;
      }
      return None;
    }

    /** Score the latest snapshot, settle the post, grant a bonus when a tier is reached, and close the post. */
    method SettleSocialPromotionPost(p: nat, now: Time, crash: Crash) returns (error: Option<Refusal>)
      modifies this
      ensures Answer(View(), error) == SettlePost(old(View()), p, now, crash)
    {
      if p >= |posts| {
        return None;
      }
      var settled := FindSettlement(p);
      if settled {
        return None;
      }
      var post := posts[p];
      if post.latest.None? || !post.latest.value.accessible || !post.latest.value.tokenPresent {
        posts := posts[p := post.(status := Disqualified)];
        return None;
      }
      var score := Score(post.latest.value.metrics);
      var settlement := |settlements|;
      settlements := settlements + [Settlement(p, post.seller, score)];
      if crash == AfterSettlement {
        return Some(Interrupted);
      }
      var tier := FindTier(score);
      if tier.Some? {
        grants := grants + [GrantFrom(tier.value, post.seller, settlement, now)];
      }
      if crash == AfterGrant {
        return Some(Interrupted);
      }
      posts := posts[p := posts[p].(status := PostStatus.Settled)];
      return None;
    }
  }
}
