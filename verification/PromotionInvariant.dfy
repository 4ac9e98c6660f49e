/**
 Grants and redemptions agree, reversals and reversed redemptions correspond one to one, each post has at
 most one settlement and each settlement at most one grant: in every state the calls can reach.
 */
module PromotionInvariant {
  import opened PromotionPricing
  import opened PromotionScore
  import opened Promotions
  import opened Rounds
  import opened Wrappers

  // ----- Counting -----

  function Bit(condition: bool): nat {
    if condition then 1 else 0
  }

  /** How many redemptions of a grant have a status. */
  function CountOf(rs: seq<Redemption>, g: nat, s: RedemptionStatus): nat {
    if |rs| == 0 then 0
    else CountOf(rs[..|rs| - 1], g, s) + Bit(rs[|rs| - 1].grant == g && rs[|rs| - 1].status == s)
  }

  lemma CountAppend(rs: seq<Redemption>, r: Redemption, g: nat, s: RedemptionStatus)
    ensures CountOf(rs + [r], g, s) == CountOf(rs, g, s) + Bit(r.grant == g && r.status == s)
  {
    assert (rs + [r])[..|rs|] == rs;
  }

  lemma {:induction false} CountUpdate(rs: seq<Redemption>, k: nat, r: Redemption, g: nat, s: RedemptionStatus)
    requires k < |rs|
    ensures CountOf(rs[k := r], g, s) + Bit(rs[k].grant == g && rs[k].status == s)
         == CountOf(rs, g, s) + Bit(r.grant == g && r.status == s)
  {
    var last := |rs| - 1;
    if k == last {
      assert rs[k := r][..last] == rs[..last];
    } else {
      assert rs[k := r][..last] == rs[..last][k := r];
      CountUpdate(rs[..last], k, r, g, s);
    }
  }

  lemma {:induction false} CountPositive(rs: seq<Redemption>, k: nat)
    requires k < |rs|
    ensures CountOf(rs, rs[k].grant, rs[k].status) >= 1
  {
    if k < |rs| - 1 {
      CountPositive(rs[..|rs| - 1], k);
    }
  }

  lemma {:induction false} CountForeign(rs: seq<Redemption>, g: nat, s: RedemptionStatus)
    requires forall k :: 0 <= k < |rs| ==> rs[k].grant != g
    ensures CountOf(rs, g, s) == 0
  {
    if |rs| > 0 {
      CountForeign(rs[..|rs| - 1], g, s);
    }
  }

  function ReversalsOf(rs: seq<Reversal>, k: nat): nat {
    if |rs| == 0 then 0
    else ReversalsOf(rs[..|rs| - 1], k) + Bit(rs[|rs| - 1].redemption == k)
  }

  lemma ReversalAppend(rs: seq<Reversal>, r: Reversal, k: nat)
    ensures ReversalsOf(rs + [r], k) == ReversalsOf(rs, k) + Bit(r.redemption == k)
  {
    assert (rs + [r])[..|rs|] == rs;
  }

  // ----- The invariant -----

  /** Available, reserved and used are exactly what the redemptions of the grant say. */
  ghost predicate Agrees(status: GrantStatus, rs: seq<Redemption>, g: nat) {
    && CountOf(rs, g, Held) == Bit(status == Reserved)
    && CountOf(rs, g, Consumed) == Bit(status == Used)
  }

  ghost predicate GrantsAgree(grants: seq<Grant>, rs: seq<Redemption>) {
    && (forall k :: 0 <= k < |rs| ==> rs[k].grant < |grants| && rs[k].buyer == grants[rs[k].grant].seller)
    && (forall g: nat :: g < |grants| ==> Agrees(grants[g].status, rs, g))
  }

  ghost predicate AmountsSplit(rs: seq<Redemption>) {
    forall k :: 0 <= k < |rs| ==> rs[k].discount + rs[k].charged == rs[k].gross
  }

  ghost predicate ReversalsMatch(reversals: seq<Reversal>, rs: seq<Redemption>) {
    && (forall k: nat :: ReversalsOf(reversals, k) == Bit(k < |rs| && rs[k].status == Reversed))
    && (forall j :: 0 <= j < |reversals| ==>
          && reversals[j].redemption < |rs|
          && reversals[j].discount == rs[reversals[j].redemption].discount
          && reversals[j].buyer == rs[reversals[j].redemption].buyer)
  }

  ghost predicate SettledOnce(d: Desk) {
    && (forall i, j :: 0 <= i < j < |d.settlements| ==> d.settlements[i].post != d.settlements[j].post)
    && (forall j :: 0 <= j < |d.settlements| ==>
          d.settlements[j].post < |d.posts| && d.settlements[j].seller == d.posts[d.settlements[j].post].seller)
  }

  /** Each grant comes from a settlement of its own and carries the tier its score reached. */
  ghost predicate GrantedOnce(d: Desk) {
    && (forall i, j :: 0 <= i < j < |d.grants| ==> d.grants[i].settlement != d.grants[j].settlement)
    && (forall g :: 0 <= g < |d.grants| ==> Earned(d, d.grants[g]))
  }

  ghost predicate Earned(d: Desk, g: Grant) {
    && g.settlement < |d.settlements|
    && g.seller == d.settlements[g.settlement].seller
    && var tier := TierAt(d.tiers, d.settlements[g.settlement].score);
    && tier.Some? && g.percent == tier.value.percent && g.cap == tier.value.cap
  }

  ghost predicate Inv(d: Desk) {
    && GrantsAgree(d.grants, d.redemptions)
    && AmountsSplit(d.redemptions)
    && ReversalsMatch(d.reversals, d.redemptions)
    && SettledOnce(d)
    && GrantedOnce(d)
  }

  // ----- One redemption and its grant change together -----

  lemma ChangeAgrees(grants: seq<Grant>, rs: seq<Redemption>, k: nat, r: Redemption, status: GrantStatus)
    requires GrantsAgree(grants, rs) && k < |rs|
    requires r.grant == rs[k].grant && r.buyer == rs[k].buyer
    requires || (rs[k].status == Held && r.status == Consumed && status == Used)
             || (rs[k].status == Held && r.status == Released && status == Available)
             || (rs[k].status == Consumed && r.status == Reversed && status == Available)
    ensures Agrees(status, rs[k := r], r.grant)
    ensures forall g: nat :: g < |grants| && g != r.grant ==> Agrees(grants[g].status, rs[k := r], g)
  {
    CountPositive(rs, k);
    assert Agrees(grants[r.grant].status, rs, r.grant);
    forall g: nat, s: RedemptionStatus
      ensures CountOf(rs[k := r], g, s) + Bit(rs[k].grant == g && rs[k].status == s)
           == CountOf(rs, g, s) + Bit(r.grant == g && r.status == s)
    {
      CountUpdate(rs, k, r, g, s);
    }
    forall g: nat | g < |grants| && g != r.grant ensures Agrees(grants[g].status, rs[k := r], g) {
      assert Agrees(grants[g].status, rs, g);
    }
  }

  lemma ChangeKeeps(d: Desk, k: nat, r: Redemption, g: Grant)
    requires Inv(d) && k < |d.redemptions|
    requires r == d.redemptions[k].(status := r.status, purchase := r.purchase, resolvedAt := r.resolvedAt)
    requires g == d.grants[r.grant].(status := g.status, usedAt := g.usedAt)
    requires || (d.redemptions[k].status == Held && r.status == Consumed && g.status == Used)
             || (d.redemptions[k].status == Held && r.status == Released && g.status == Available)
             || (d.redemptions[k].status == Consumed && r.status == Reversed && g.status == Available)
    ensures GrantsAgree(Change(d, k, r, g).grants, Change(d, k, r, g).redemptions)
    ensures AmountsSplit(Change(d, k, r, g).redemptions)
    ensures SettledOnce(Change(d, k, r, g)) && GrantedOnce(Change(d, k, r, g))
  {
    ChangeAgrees(d.grants, d.redemptions, k, r, g.status);
  }

  lemma ReversalsStay(reversals: seq<Reversal>, rs: seq<Redemption>, k: nat, r: Redemption)
    requires ReversalsMatch(reversals, rs) && k < |rs|
    requires r.discount == rs[k].discount && r.buyer == rs[k].buyer
    requires rs[k].status != Reversed && r.status != Reversed
    ensures ReversalsMatch(reversals, rs[k := r])
  {
  }

  lemma ReversalRecorded(reversals: seq<Reversal>, rs: seq<Redemption>, k: nat, r: Redemption, v: Reversal)
    requires ReversalsMatch(reversals, rs) && k < |rs|
    requires r.discount == rs[k].discount && r.buyer == rs[k].buyer
    requires rs[k].status != Reversed && r.status == Reversed
    requires v.redemption == k && v.discount == r.discount && v.buyer == r.buyer
    ensures ReversalsMatch(reversals + [v], rs[k := r])
  {
    forall j: nat ensures ReversalsOf(reversals + [v], j) == Bit(j < |rs| && rs[k := r][j].status == Reversed) {
      ReversalAppend(reversals, v, j);
    }
  }

  // ----- Every call keeps the invariant -----

  lemma OpeningHolds(tiers: Option<seq<Tier>>, minCharge: int)
    ensures Inv(Opening(tiers, minCharge))
  {
  }

  lemma ReserveAgrees(grants: seq<Grant>, rs: seq<Redemption>, g: nat, r: Redemption)
    requires GrantsAgree(grants, rs) && g < |grants| && grants[g].status == Available
    requires r.grant == g && r.buyer == grants[g].seller && r.status == Held
    ensures GrantsAgree(grants[g := grants[g].(status := Reserved)], rs + [r])
  {
    var next := grants[g := grants[g].(status := Reserved)];
    forall j: nat | j < |next| ensures Agrees(next[j].status, rs + [r], j) {
      assert Agrees(grants[j].status, rs, j);
      CountAppend(rs, r, j, Held);
      CountAppend(rs, r, j, Consumed);
    }
  }

  lemma ReserveResult(d: Desk, grant: Option<nat>, c: Checkout, now: Time)
    requires Reserve(d, grant, c, now).desk != d
    ensures grant.Some? && grant.value < |d.grants| && Usable(d.grants[grant.value], c.buyer, now)
    ensures BuildPreview(TermsOf(d, d.grants[grant.value]), c.gross).Success?
    ensures var p := BuildPreview(TermsOf(d, d.grants[grant.value]), c.gross).value;
            Reserve(d, grant, c, now).desk == Holding(d, grant.value, HeldRedemption(grant.value, c, p))
  {
  }

  function HeldRedemption(g: nat, c: Checkout, p: Preview): Redemption {
    Redemption(g, c.buyer, c.raffle, c.reservation, p.gross, p.discount, p.charged, Held, None, None)
  }

  function Holding(d: Desk, g: nat, r: Redemption): Desk
    requires g < |d.grants|
  {
    d.(grants := d.grants[g := d.grants[g].(status := Reserved)], redemptions := d.redemptions + [r])
  }

  lemma HoldingKeeps(d: Desk, g: nat, r: Redemption)
    requires Inv(d) && g < |d.grants| && d.grants[g].status == Available
    requires r.grant == g && r.buyer == d.grants[g].seller && r.status == Held && r.discount + r.charged == r.gross
    ensures Inv(Holding(d, g, r))
  {
    ReserveAgrees(d.grants, d.redemptions, g, r);
    var e := Holding(d, g, r);
    forall i | 0 <= i < |e.grants| ensures Earned(e, e.grants[i]) {
      assert Earned(d, d.grants[i]);
    }
  }

  lemma ReserveKeeps(d: Desk, grant: Option<nat>, c: Checkout, now: Time)
    requires Inv(d)
    ensures Inv(Reserve(d, grant, c, now).desk)
  {
    if Reserve(d, grant, c, now).desk != d {
      ReserveResult(d, grant, c, now);
      var p := BuildPreview(TermsOf(d, d.grants[grant.value]), c.gross).value;
      HoldingKeeps(d, grant.value, HeldRedemption(grant.value, c, p));
    }
  }

  lemma MarkUsedKeeps(d: Desk, found: Option<nat>, reservation: Option<nat>, grant: Option<nat>, purchase: nat, now: Time)
    requires Inv(d)
    ensures Inv(MarkUsed(d, found, reservation, grant, purchase, now))
  {
    if reservation.Some? && grant.Some? && found.Some? && Awaits(d, found.value, reservation.value, grant.value) {
      var k := found.value;
      var r := d.redemptions[k].(status := Consumed, purchase := Some(purchase), resolvedAt := Some(now));
      ChangeKeeps(d, k, r, d.grants[r.grant].(status := Used, usedAt := Some(now)));
      ReversalsStay(d.reversals, d.redemptions, k, r);
    }
  }

  lemma ReleaseOneKeeps(d: Desk, k: nat, now: Time)
    requires Inv(d) && k < |d.redemptions| && d.redemptions[k].status == Held
    ensures Inv(ReleaseOne(d, k, now))
  {
    var r := d.redemptions[k].(status := Released, resolvedAt := Some(now));
    ChangeKeeps(d, k, r, d.grants[r.grant].(status := Available));
    ReversalsStay(d.reversals, d.redemptions, k, r);
  }

  lemma ReverseOneKeeps(d: Desk, k: nat, now: Time)
    requires Inv(d) && k < |d.redemptions| && d.redemptions[k].status == Consumed
    ensures Inv(ReverseOne(d, k, now))
  {
    var r := d.redemptions[k].(status := Reversed, resolvedAt := Some(now));
    ChangeKeeps(d, k, r, d.grants[r.grant].(status := Available, usedAt := None));
    ReversalRecorded(d.reversals, d.redemptions, k, r, Reversal(k, r.buyer, r.raffle, r.discount, r.gross, r.charged));
  }

  /** The first n redemptions that were listed have the new status; all other redemptions are as they were. */
  ghost predicate ListedBecame(before: seq<Redemption>, after: seq<Redemption>, n: nat, listed: Redemption -> bool, s: RedemptionStatus, now: Time) {
    && |after| == |before|
    && forall k :: 0 <= k < |before| ==>
         after[k] == if k < n && listed(before[k]) then before[k].(status := s, resolvedAt := Some(now)) else before[k]
  }

  lemma OneMoreListed(before: seq<Redemption>, mid: seq<Redemption>, after: seq<Redemption>, n: nat,
                      listed: Redemption -> bool, s: RedemptionStatus, now: Time)
    requires ListedBecame(before, mid, n, listed, s, now) && n < |before|
    requires after == if listed(before[n]) then mid[n := mid[n].(status := s, resolvedAt := Some(now))] else mid
    ensures ListedBecame(before, after, n + 1, listed, s, now)
  {
  }

  lemma ReleaseStep(d: Desk, e: Desk, k: nat, reservation: nat, now: Time)
    requires Inv(e) && k < |d.redemptions|
    requires ListedBecame(d.redemptions, e.redemptions, k, r => HeldFor(r, reservation), Released, now)
    ensures var next := ReleaseListed(d, reservation, now)(e, k);
            Inv(next) && ListedBecame(d.redemptions, next.redemptions, k + 1, r => HeldFor(r, reservation), Released, now)
  {
    var listed := (r: Redemption) => HeldFor(r, reservation);
    if listed(d.redemptions[k]) {
      ReleaseOneKeeps(e, k, now);
    }
    OneMoreListed(d.redemptions, e.redemptions, ReleaseListed(d, reservation, now)(e, k).redemptions, k, listed, Released, now);
  }

  /** Releasing a reservation frees exactly the redemptions held for it, and their grants become available again. */
  lemma ReleaseFreesTheReservation(d: Desk, reservation: nat, now: Time)
    requires Inv(d)
    ensures var e := Release(d, reservation, now);
            && Inv(e)
            && ListedBecame(d.redemptions, e.redemptions, |d.redemptions|, r => HeldFor(r, reservation), Released, now)
  {
    var listed := (r: Redemption) => HeldFor(r, reservation);
    var good := (e: Desk, k: nat) => Inv(e) && ListedBecame(d.redemptions, e.redemptions, k, listed, Released, now);
    forall e: Desk, k: nat | k < |d.redemptions| && good(e, k)
      ensures good(ReleaseListed(d, reservation, now)(e, k), k + 1)
    {
      ReleaseStep(d, e, k, reservation, now);
    }
    FoldInduction(d, |d.redemptions|, ReleaseListed(d, reservation, now), good);
  }

  predicate Refunded(r: Redemption, purchase: nat, refund: Option<real>) {
    ConsumedBy(r, purchase) && IsFullRefund(r, refund)
  }

  lemma ReverseStep(d: Desk, e: Desk, k: nat, purchase: nat, refund: Option<real>, now: Time)
    requires Inv(e) && k < |d.redemptions|
    requires ListedBecame(d.redemptions, e.redemptions, k, r => Refunded(r, purchase, refund), Reversed, now)
    ensures var next := ReverseListed(d, purchase, refund, now)(e, k);
            Inv(next) && ListedBecame(d.redemptions, next.redemptions, k + 1, r => Refunded(r, purchase, refund), Reversed, now)
  {
    var listed := (r: Redemption) => Refunded(r, purchase, refund);
    if listed(d.redemptions[k]) {
      ReverseOneKeeps(e, k, now);
    }
    OneMoreListed(d.redemptions, e.redemptions, ReverseListed(d, purchase, refund, now)(e, k).redemptions, k, listed, Reversed, now);
  }

  /** A refund takes back exactly the bonuses of the purchase that it covers to within a cent, with one reversal each. */
  lemma ReinstateReversesFullRefunds(d: Desk, purchase: nat, refund: Option<real>, now: Time)
    requires Inv(d)
    ensures var e := Reinstate(d, purchase, refund, now);
            && Inv(e)
            && ListedBecame(d.redemptions, e.redemptions, |d.redemptions|, r => Refunded(r, purchase, refund), Reversed, now)
  {
    var listed := (r: Redemption) => Refunded(r, purchase, refund);
    var good := (e: Desk, k: nat) => Inv(e) && ListedBecame(d.redemptions, e.redemptions, k, listed, Reversed, now);
    forall e: Desk, k: nat | k < |d.redemptions| && good(e, k)
      ensures good(ReverseListed(d, purchase, refund, now)(e, k), k + 1)
    {
      ReverseStep(d, e, k, purchase, refund, now);
    }
    FoldInduction(d, |d.redemptions|, ReverseListed(d, purchase, refund, now), good);
  }

  lemma PostsKeep(d: Desk, posts: seq<Post>)
    requires Inv(d) && |posts| >= |d.posts|
    requires forall p :: 0 <= p < |d.posts| ==> posts[p].seller == d.posts[p].seller
    ensures Inv(d.(posts := posts))
  {
    var e := d.(posts := posts);
    forall g | 0 <= g < |e.grants| ensures Earned(e, e.grants[g]) {
      assert Earned(d, d.grants[g]);
    }
  }

  lemma SettlementKeeps(d: Desk, p: nat)
    requires Inv(d) && p < |d.posts| && d.posts[p].latest.Some? && !HasSettlement(d, p)
    ensures Inv(WithSettlement(d, p))
  {
    var e := WithSettlement(d, p);
    forall g | 0 <= g < |e.grants| ensures Earned(e, e.grants[g]) {
      assert Earned(d, d.grants[g]);
    }
    forall i | 0 <= i < |d.settlements| ensures d.settlements[i].post != p {
    }
  }

  /** No grant names a settlement that does not exist yet. */
  lemma GrantKeeps(d: Desk, p: nat, now: Time)
    requires Inv(d) && p < |d.posts| && d.posts[p].latest.Some? && !HasSettlement(d, p)
    ensures Inv(WithGrant(WithSettlement(d, p), p, |d.settlements|, now))
  {
    SettlementKeeps(d, p);
    var s := WithSettlement(d, p);
    var e := WithGrant(s, p, |d.settlements|, now);
    if e != s {
      var g := e.grants[|s.grants|];
      NewGrantAgrees(s.grants, s.redemptions, g);
      forall i | 0 <= i < |s.grants| ensures s.grants[i].settlement != g.settlement {
        assert Earned(d, d.grants[i]);
      }
      forall i | 0 <= i < |e.grants| ensures Earned(e, e.grants[i]) {
        assert i < |s.grants| ==> Earned(s, s.grants[i]);
      }
    }
  }

  lemma NewGrantAgrees(grants: seq<Grant>, rs: seq<Redemption>, g: Grant)
    requires GrantsAgree(grants, rs) && g.status == Available
    ensures GrantsAgree(grants + [g], rs)
  {
    CountForeign(rs, |grants|, Held);
    CountForeign(rs, |grants|, Consumed);
    forall j: nat | j < |grants| + 1 ensures Agrees((grants + [g])[j].status, rs, j) {
      if j < |grants| {
        assert Agrees(grants[j].status, rs, j);
      }
    }
  }

  lemma SettleKeeps(d: Desk, p: nat, now: Time, crash: Crash)
    requires Inv(d)
    ensures Inv(SettlePost(d, p, now, crash).desk)
  {
    if p < |d.posts| && !HasSettlement(d, p) {
      if Settleable(d.posts[p]) {
        SettlementKeeps(d, p);
        GrantKeeps(d, p, now);
        var granted := WithGrant(WithSettlement(d, p), p, |d.settlements|, now);
        PostsKeep(granted, granted.posts[p := granted.posts[p].(status := PostStatus.Settled)]);
      } else {
        PostsKeep(d, d.posts[p := d.posts[p].(status := Disqualified)]);
      }
    }
  }
}
