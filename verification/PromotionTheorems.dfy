/** What holds of every run of the promotion calls. */
module PromotionTheorems {
  import opened PromotionInvariant
  import opened PromotionPricing
  import opened PromotionScore
  import opened Promotions
  import opened Rounds
  import opened Wrappers

  // ----- What only moves forward -----

  /** Held leads to consumed or released, consumed to reversed; amounts and owners stay. */
  predicate RedemptionLater(a: Redemption, b: Redemption) {
    && b == a.(status := b.status, purchase := b.purchase, resolvedAt := b.resolvedAt)
    && (a.status == Released ==> b == a)
    && (a.status == Reversed ==> b == a)
    && (a.status == Consumed ==> (b.status == Consumed || b.status == Reversed) && b.purchase == a.purchase)
    && (a.status == Held && b.status == Held ==> b == a)
  }

  predicate GrantLater(a: Grant, b: Grant) {
    b == a.(status := b.status, usedAt := b.usedAt)
  }

  ghost predicate DeskLater(a: Desk, b: Desk) {
    && a.tiers == b.tiers && a.minCharge == b.minCharge
    && a.settlements <= b.settlements
    && a.reversals <= b.reversals
    && |a.grants| <= |b.grants| && |a.redemptions| <= |b.redemptions| && |a.posts| <= |b.posts|
    && (forall g :: 0 <= g < |a.grants| ==> GrantLater(a.grants[g], b.grants[g]))
    && (forall k :: 0 <= k < |a.redemptions| ==> RedemptionLater(a.redemptions[k], b.redemptions[k]))
    && (forall g :: |a.grants| <= g < |b.grants| ==> b.grants[g].settlement >= |a.settlements|)
  }

  lemma LaterTwice(a: Desk, b: Desk, c: Desk)
    requires DeskLater(a, b) && DeskLater(b, c)
    ensures DeskLater(a, c)
  {
    forall g | 0 <= g < |a.grants| ensures GrantLater(a.grants[g], c.grants[g]) {
      assert GrantLater(a.grants[g], b.grants[g]) && GrantLater(b.grants[g], c.grants[g]);
    }
    forall k | 0 <= k < |a.redemptions| ensures RedemptionLater(a.redemptions[k], c.redemptions[k]) {
      assert RedemptionLater(a.redemptions[k], b.redemptions[k]) && RedemptionLater(b.redemptions[k], c.redemptions[k]);
    }
    forall g | |a.grants| <= g < |c.grants| ensures c.grants[g].settlement >= |a.settlements| {
      assert g < |b.grants| ==> GrantLater(b.grants[g], c.grants[g]);
    }
  }

  lemma LaterSelf(d: Desk)
    ensures DeskLater(d, d)
  {
  }

  lemma ReserveLater(d: Desk, grant: Option<nat>, c: Checkout, now: Time)
    ensures DeskLater(d, Reserve(d, grant, c, now).desk)
  {
    if Reserve(d, grant, c, now).desk != d {
      ReserveResult(d, grant, c, now);
    }
  }

  lemma MarkUsedLater(d: Desk, found: Option<nat>, reservation: Option<nat>, grant: Option<nat>, purchase: nat, now: Time)
    ensures DeskLater(d, MarkUsed(d, found, reservation, grant, purchase, now))
  {
  }

  lemma ReleaseOneLater(d: Desk, k: nat, now: Time)
    requires k < |d.redemptions| && d.redemptions[k].status == Held
    ensures DeskLater(d, ReleaseOne(d, k, now))
  {
  }

  lemma ReverseOneLater(d: Desk, k: nat, now: Time)
    requires k < |d.redemptions| && d.redemptions[k].status == Consumed
    ensures DeskLater(d, ReverseOne(d, k, now))
  {
  }

  lemma ReleaseLater(d: Desk, reservation: nat, now: Time)
    requires Inv(d)
    ensures DeskLater(d, Release(d, reservation, now))
  {
    LaterSelf(d);
    var listed := (r: Redemption) => HeldFor(r, reservation);
    var good := (e: Desk, k: nat) =>
      Inv(e) && ListedBecame(d.redemptions, e.redemptions, k, listed, Released, now) && DeskLater(d, e);
    forall e: Desk, k: nat | k < |d.redemptions| && good(e, k)
      ensures good(ReleaseListed(d, reservation, now)(e, k), k + 1)
    {
      ReleaseStep(d, e, k, reservation, now);
      if HeldFor(d.redemptions[k], reservation) {
        ReleaseOneLater(e, k, now);
        LaterTwice(d, e, ReleaseOne(e, k, now));
      }
    }
    FoldInduction(d, |d.redemptions|, ReleaseListed(d, reservation, now), good);
  }

  lemma ReverseStepLater(d: Desk, e: Desk, k: nat, purchase: nat, refund: Option<real>, now: Time)
    requires DeskLater(d, e) && k < |d.redemptions| && e.redemptions[k] == d.redemptions[k]
    ensures DeskLater(d, ReverseListed(d, purchase, refund, now)(e, k))
  {
    if Refunded(d.redemptions[k], purchase, refund) {
      ReverseOneLater(e, k, now);
      LaterTwice(d, e, ReverseOne(e, k, now));
    }
  }

  lemma ReinstateLater(d: Desk, purchase: nat, refund: Option<real>, now: Time)
    requires Inv(d)
    ensures DeskLater(d, Reinstate(d, purchase, refund, now))
  {
    LaterSelf(d);
    var listed := (r: Redemption) => Refunded(r, purchase, refund);
    var good := (e: Desk, k: nat) =>
      Inv(e) && ListedBecame(d.redemptions, e.redemptions, k, listed, Reversed, now) && DeskLater(d, e);
    forall e: Desk, k: nat | k < |d.redemptions| && good(e, k)
      ensures good(ReverseListed(d, purchase, refund, now)(e, k), k + 1)
    {
      ReverseStep(d, e, k, purchase, refund, now);
      ReverseStepLater(d, e, k, purchase, refund, now);
    }
    FoldInduction(d, |d.redemptions|, ReverseListed(d, purchase, refund, now), good);
  }

  lemma SettleLater(d: Desk, p: nat, now: Time, crash: Crash)
    ensures DeskLater(d, SettlePost(d, p, now, crash).desk)
  {
  }

  // ----- Runs -----

  ghost predicate GoodStep(d: Desk, e: Desk) {
    Inv(e) && DeskLater(d, e)
  }

  lemma CheckoutStep(d: Desk, e: PromotionEvent)
    requires Inv(d)
    requires e.call.CallReserve? || e.call.CallMarkUsed? || e.call.CallRelease? || e.call.CallReinstate?
    ensures GoodStep(d, Apply(d, e))
  {
    match e.call
    case CallReserve(grant, checkout) =>
      ReserveKeeps(d, grant, checkout, e.at);
      ReserveLater(d, grant, checkout, e.at);
    case CallMarkUsed(found, reservation, grant, purchase) =>
      MarkUsedKeeps(d, found, reservation, grant, purchase, e.at);
      MarkUsedLater(d, found, reservation, grant, purchase, e.at);
    case CallRelease(held) =>
      ReleaseFreesTheReservation(d, held, e.at);
      ReleaseLater(d, held, e.at);
    case CallReinstate(purchase, refund) =>
      ReinstateReversesFullRefunds(d, purchase, refund, e.at);
      ReinstateLater(d, purchase, refund, e.at);
  }

  /** Posts may be added and relabelled; nothing else is touched. */
  ghost predicate PostsOnly(d: Desk, e: Desk) {
    && e == d.(posts := e.posts) && |d.posts| <= |e.posts|
    && forall p :: 0 <= p < |d.posts| ==> e.posts[p].seller == d.posts[p].seller
  }

  lemma PostsOnlyStep(d: Desk, e: Desk)
    requires Inv(d) && PostsOnly(d, e)
    ensures GoodStep(d, e)
  {
    PostsKeep(d, e.posts);
    LaterSelf(d);
  }

  lemma RelabelIsPostsOnly(d: Desk, p: nat, status: PostStatus, seen: Option<Snapshot>)
    ensures PostsOnly(d, Relabel(d, p, status).desk)
    ensures PostsOnly(d, Validate(d, p, seen).desk)
  {
  }

  lemma PostStep(d: Desk, e: PromotionEvent)
    requires Inv(d)
    requires e.call.CallSubmit? || e.call.CallValidate? || e.call.CallRetry? || e.call.CallDisqualify? || e.call.CallSettle?
    ensures GoodStep(d, Apply(d, e))
  {
    match e.call
    case CallSubmit(seller, raffle) => PostsOnlyStep(d, Submit(d, seller, raffle));
    case CallValidate(post, seen) =>
      RelabelIsPostsOnly(d, post, Settled, seen);
      PostsOnlyStep(d, Validate(d, post, seen).desk);
    case CallRetry(post) =>
      RelabelIsPostsOnly(d, post, PendingValidation, None);
      PostsOnlyStep(d, Retry(d, post).desk);
    case CallDisqualify(post) =>
      RelabelIsPostsOnly(d, post, Disqualified, None);
      PostsOnlyStep(d, AdminDisqualify(d, post).desk);
    case CallSettle(post, crash) =>
      SettleKeeps(d, post, e.at, crash);
      SettleLater(d, post, e.at, crash);
  }

  /** Any calls, in any order, keep the invariant and only move the tables forward. */
  lemma {:induction false} RunsHold(d: Desk, events: seq<PromotionEvent>)
    requires Inv(d)
    ensures Inv(Run(d, events)) && DeskLater(d, Run(d, events))
  {
    if |events| > 0 {
      var last := |events| - 1;
      RunsHold(d, events[..last]);
      var mid := Run(d, events[..last]);
      var e := events[last];
      if e.call.CallReserve? || e.call.CallMarkUsed? || e.call.CallRelease? || e.call.CallReinstate? {
        CheckoutStep(mid, e);
      } else {
        PostStep(mid, e);
      }
      LaterTwice(d, mid, Run(d, events));
    }
  }

  /** A grant is available, reserved or used exactly when its redemptions say so, in every reachable state. */
  lemma GrantsAndRedemptionsAgree(tiers: Option<seq<Tier>>, minCharge: int, events: seq<PromotionEvent>, g: nat)
    requires g < |Run(Opening(tiers, minCharge), events).grants|
    ensures var d := Run(Opening(tiers, minCharge), events);
            var held := CountOf(d.redemptions, g, Held);
            var consumed := CountOf(d.redemptions, g, Consumed);
            && (d.grants[g].status == Reserved <==> held == 1 && consumed == 0)
            && (d.grants[g].status == Used <==> held == 0 && consumed == 1)
            && (d.grants[g].status == Available <==> held == 0 && consumed == 0)
  {
    OpeningHolds(tiers, minCharge);
    RunsHold(Opening(tiers, minCharge), events);
    var d := Run(Opening(tiers, minCharge), events);
    assert Agrees(d.grants[g].status, d.redemptions, g);
  }

  /** Reversal transactions and reversed redemptions correspond one to one, amount by amount. */
  lemma ReversalsAreOneToOne(tiers: Option<seq<Tier>>, minCharge: int, events: seq<PromotionEvent>, k: nat)
    ensures var d := Run(Opening(tiers, minCharge), events);
            && ReversalsOf(d.reversals, k) <= 1
            && (ReversalsOf(d.reversals, k) == 1 <==> k < |d.redemptions| && d.redemptions[k].status == Reversed)
            && forall j :: 0 <= j < |d.reversals| ==>
                 d.reversals[j].redemption < |d.redemptions|
                 && d.reversals[j].discount == d.redemptions[d.reversals[j].redemption].discount
  {
    OpeningHolds(tiers, minCharge);
    RunsHold(Opening(tiers, minCharge), events);
    var d := Run(Opening(tiers, minCharge), events);
    assert ReversalsOf(d.reversals, k) == Bit(k < |d.redemptions| && d.redemptions[k].status == Reversed);
  }

  /** The post a grant was earned with. */
  function SourcePost(d: Desk, g: nat): nat
    requires g < |d.grants| && d.grants[g].settlement < |d.settlements|
  {
    d.settlements[d.grants[g].settlement].post
  }

  /** Each post is settled at most once and earns at most one grant, however often it is retried. */
  lemma OneGrantPerPost(tiers: Option<seq<Tier>>, minCharge: int, events: seq<PromotionEvent>, g: nat, h: nat)
    requires g < h < |Run(Opening(tiers, minCharge), events).grants|
    ensures var d := Run(Opening(tiers, minCharge), events);
            && d.grants[g].settlement < |d.settlements| && d.grants[h].settlement < |d.settlements|
            && SourcePost(d, g) != SourcePost(d, h)
    ensures var d := Run(Opening(tiers, minCharge), events);
            forall i, j :: 0 <= i < j < |d.settlements| ==> d.settlements[i].post != d.settlements[j].post
  {
    OpeningHolds(tiers, minCharge);
    RunsHold(Opening(tiers, minCharge), events);
    var d := Run(Opening(tiers, minCharge), events);
    assert Earned(d, d.grants[g]) && Earned(d, d.grants[h]);
  }

  /** A grant is worth the most demanding tier that the score of its settlement reached. */
  lemma GrantsCarryTheirTier(tiers: Option<seq<Tier>>, minCharge: int, events: seq<PromotionEvent>, g: nat)
    requires g < |Run(Opening(tiers, minCharge), events).grants|
    ensures var d := Run(Opening(tiers, minCharge), events);
            && d.grants[g].settlement < |d.settlements|
            && var score := d.settlements[d.grants[g].settlement].score;
            && exists t :: Offered(tiers, t) && t.minScore <= score as real
                 && t.percent == d.grants[g].percent && t.cap == d.grants[g].cap
                 && forall u :: Offered(tiers, u) && u.minScore <= score as real ==> u.minScore <= t.minScore
  {
    OpeningHolds(tiers, minCharge);
    RunsHold(Opening(tiers, minCharge), events);
    var d := Run(Opening(tiers, minCharge), events);
    assert Earned(d, d.grants[g]);
    var score := d.settlements[d.grants[g].settlement].score;
    TierIsGreatestReached(tiers, score);
    var t := TierAt(tiers, score).value;
    assert Offered(tiers, t);
  }

  /** If settling stops between the settlement and the grant, the post never earns a grant, whatever is retried. */
  lemma InterruptedSettlementNeverGrants(d: Desk, p: nat, now: Time, more: seq<PromotionEvent>, g: nat)
    requires Inv(d) && SettlePost(d, p, now, AfterSettlement).error == Some(Interrupted)
    requires g < |Run(SettlePost(d, p, now, AfterSettlement).desk, more).grants|
    ensures var e := Run(SettlePost(d, p, now, AfterSettlement).desk, more);
            && e.grants[g].settlement < |e.settlements|
            && SourcePost(e, g) != p
            && HasSettlement(e, p)
  {
    var s := SettlePost(d, p, now, AfterSettlement).desk;
    SettleKeeps(d, p, now, AfterSettlement);
    RunsHold(s, more);
    InterruptedWrites(d, p, now);
    SettledWithoutGrant(d, s, Run(s, more), p, g);
  }

  lemma InterruptedWrites(d: Desk, p: nat, now: Time)
    requires SettlePost(d, p, now, AfterSettlement).error == Some(Interrupted)
    ensures var s := SettlePost(d, p, now, AfterSettlement).desk;
            && s.grants == d.grants && d.settlements <= s.settlements
            && |s.settlements| == |d.settlements| + 1 && s.settlements[|d.settlements|].post == p
  {
  }

  /** A settlement no grant names is never named by a later one. */
  lemma SettledWithoutGrant(d: Desk, s: Desk, e: Desk, p: nat, g: nat)
    requires Inv(d) && Inv(e) && DeskLater(s, e) && g < |e.grants|
    requires s.grants == d.grants && d.settlements <= s.settlements
    requires |s.settlements| == |d.settlements| + 1 && s.settlements[|d.settlements|].post == p
    ensures e.grants[g].settlement < |e.settlements| && SourcePost(e, g) != p && HasSettlement(e, p)
  {
    assert e.settlements[|d.settlements|].post == p;
    assert Earned(e, e.grants[g]);
    if g < |s.grants| {
      assert Earned(d, d.grants[g]);
      assert GrantLater(s.grants[g], e.grants[g]);
    }
  }

  /** A checkout gets a bonus exactly with an unexpired, available grant of its own buyer, above the minimum charge. */
  lemma ReservedExactly(d: Desk, grant: nat, c: Checkout, now: Time)
    ensures Reserve(d, Some(grant), c, now).error.None? <==>
            && c.seller != c.buyer
            && grant < |d.grants|
            && Usable(d.grants[grant], c.buyer, now)
            && c.gross > d.minCharge
    ensures Reserve(d, Some(grant), c, now).error.Some? ==> Reserve(d, Some(grant), c, now).desk == d
  {
  }

  /** Two checkouts never hold or use the same grant at once: a second reservation is refused until the first is undone. */
  lemma NoDoubleUse(d: Desk, grant: nat, c: Checkout, c2: Checkout, now: Time, later: Time)
    requires Inv(d) && Reserve(d, Some(grant), c, now).error.None?
    ensures var held := Reserve(d, Some(grant), c, now).desk;
            && Reserve(held, Some(grant), c2, later).error.Some?
            && (forall found: nat, purchase: nat ::
                  Reserve(MarkUsed(held, Some(found), Some(c.reservation), Some(grant), purchase, now), Some(grant), c2, later).error.Some?)
  {
  }

  // ----- What each call writes -----

  /** A reservation holds the grant and adds one redemption of the greatest discount the grant's terms allow. */
  lemma ReservationWritesExactly(d: Desk, grant: nat, c: Checkout, now: Time, cents: int)
    requires Reserve(d, Some(grant), c, now).error.None?
    ensures var e := Reserve(d, Some(grant), c, now).desk;
            && grant < |d.grants| == |e.grants| && |e.redemptions| == |d.redemptions| + 1
            && e.redemptions[..|d.redemptions|] == d.redemptions
            && e.grants[grant] == d.grants[grant].(status := Reserved)
            && (forall g :: 0 <= g < |d.grants| && g != grant ==> e.grants[g] == d.grants[g])
            && var r := e.redemptions[|d.redemptions|];
            && r.grant == grant && r.buyer == c.buyer && r.raffle == c.raffle && r.reservation == c.reservation
            && r.gross == c.gross && r.charged == c.gross - r.discount && r.status == Held && r.purchase.None?
            && var terms := BonusTerms(d.grants[grant].percent, d.grants[grant].cap, d.minCharge);
            && Allowed(terms, c.gross, r.discount)
            && (Allowed(terms, c.gross, cents) ==> cents <= r.discount)
  {
    DiscountIsGreatestAllowed(TermsOf(d, d.grants[grant]), c.gross, cents);
  }

  /** A held redemption is consumed with its purchase on record, its grant is used now, and nothing else changes. */
  lemma ConsumptionWritesExactly(d: Desk, k: nat, reservation: nat, grant: nat, purchase: nat, now: Time)
    requires Inv(d)
    ensures var e := MarkUsed(d, Some(k), Some(reservation), Some(grant), purchase, now);
            if k < |d.redemptions| && d.redemptions[k].reservation == reservation && d.redemptions[k].grant == grant
               && d.redemptions[k].status == Held
            then
              && grant < |d.grants|
              && e == d.(redemptions := d.redemptions[k := d.redemptions[k].(status := Consumed, purchase := Some(purchase),
                                                                             resolvedAt := Some(now))],
                         grants := d.grants[grant := d.grants[grant].(status := Used, usedAt := Some(now))])
            else e == d
  {
  }

  /** A refund counts as full exactly without a positive amount, or from one and a half cents below the charge upwards. */
  lemma FullRefundExactly(r: Redemption, refund: Option<real>)
    ensures IsFullRefund(r, refund) <==>
            refund.None? || refund.value <= 0.0 || refund.value >= r.charged as real - 1.5
  {
  }

  /** A validation disqualifies a post exactly when it was seen without access or token, and keeps what was seen. */
  lemma ValidationWritesExactly(d: Desk, p: nat, seen: Option<Snapshot>)
    requires p < |d.posts|
    ensures var e := Validate(d, p, seen).desk;
            && |e.posts| == |d.posts| && e == d.(posts := d.posts[p := e.posts[p]])
            && e.posts[p].seller == d.posts[p].seller && e.posts[p].raffle == d.posts[p].raffle
            && (e.posts[p].status == Disqualified <==> seen.Some? && !(seen.value.accessible && seen.value.tokenPresent))
            && (e.posts[p].status == Validated <==> seen.Some? && seen.value.accessible && seen.value.tokenPresent)
            && (e.posts[p].status == TechnicalReview <==> seen.None?)
            && (seen.Some? ==> e.posts[p].latest == seen)
            && (seen.None? ==> !Settleable(e.posts[p]))
  {
  }

  /** A post is submitted as pending; a retry puts any post back to pending, an administrator disqualifies any. */
  lemma PostsAreLabelled(d: Desk, p: nat, seller: nat, raffle: nat)
    ensures var e := Submit(d, seller, raffle);
            && e.(posts := d.posts) == d && |e.posts| == |d.posts| + 1 && e.posts[..|d.posts|] == d.posts
            && e.posts[|d.posts|] == Post(seller, raffle, PendingValidation, None)
    ensures var a, b := Retry(d, p), AdminDisqualify(d, p);
            if p < |d.posts| then
              && a == Ok(d.(posts := d.posts[p := d.posts[p].(status := PendingValidation)]))
              && b == Ok(d.(posts := d.posts[p := d.posts[p].(status := Disqualified)]))
            else
              a == b == Fail(d, NoSuchPost)
  {
  }

  /** The post earns a grant of this tier, for its seller, open for thirty days. */
  predicate EarnedNow(d: Desk, p: nat, g: Grant, t: Tier, now: Time)
    requires p < |d.posts|
  {
    && g.seller == d.posts[p].seller && g.settlement == |d.settlements|
    && g.percent == t.percent && g.cap == t.cap
    && g.status == Available && g.usedAt.None? && g.expiresAt == now + 30 * 86_400_000
  }

  /**
   An undisturbed settlement of a post that was seen in order appends its score, closes the post, and grants the
   tier the score reaches, if it reaches one; a settled post is left alone and one not in order is disqualified.
   */
  lemma SettlementWritesExactly(d: Desk, p: nat, now: Time)
    requires p < |d.posts|
    ensures var a := SettlePost(d, p, now, NoCrash);
            && a.error.None?
            && (HasSettlement(d, p) ==> a.desk == d)
            && (!HasSettlement(d, p) && !Settleable(d.posts[p]) ==>
                  a.desk == d.(posts := d.posts[p := d.posts[p].(status := Disqualified)]))
            && (!HasSettlement(d, p) && Settleable(d.posts[p]) ==>
                  var metrics := d.posts[p].latest.value.metrics;
                  && a.desk.settlements == d.settlements + [Settlement(p, d.posts[p].seller, Score(metrics))]
                  && a.desk.posts == d.posts[p := d.posts[p].(status := PostStatus.Settled)]
                  && a.desk.redemptions == d.redemptions && a.desk.reversals == d.reversals
                  && match TierFor(d.tiers, metrics)
                     case None => a.desk.grants == d.grants
                     case Some(t) =>
                       && |a.desk.grants| == |d.grants| + 1 && a.desk.grants[..|d.grants|] == d.grants
                       && EarnedNow(d, p, a.desk.grants[|d.grants|], t, now))
  {
  }
}
