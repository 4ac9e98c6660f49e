/**
 Promotion posts, their settlements, the bonus grants they earn, and the redemptions of those grants at
 checkout. Every call is a function from the stored tables to the new ones and the error, if any.
 */
module Promotions {
  import opened PromotionPricing
  import opened PromotionScore
  import opened Rounding
  import opened Rounds
  import opened Wrappers

  type Time = int

  const GRANT_LIFETIME := 30 * 86_400_000

  datatype GrantStatus = Available | Reserved | Used

  datatype Grant = Grant(
    seller: nat,
    settlement: nat,
    percent: real,
    cap: int,
    expiresAt: Time,
    status: GrantStatus,
    usedAt: Option<Time>)

  datatype RedemptionStatus = Held | Consumed | Released | Reversed

  /** Amounts are integer cents. */
  datatype Redemption = Redemption(
    grant: nat,
    buyer: nat,
    raffle: nat,
    reservation: nat,
    gross: int,
    discount: int,
    charged: int,
    status: RedemptionStatus,
    purchase: Option<nat>,
    resolvedAt: Option<Time>)

  /** The transaction that takes a discount back after a full refund. */
  datatype Reversal = Reversal(redemption: nat, buyer: nat, raffle: nat, discount: int, gross: int, charged: int)

  datatype PostStatus = PendingValidation | Validated | TechnicalReview | Disqualified | Settled

  datatype Snapshot = Snapshot(accessible: bool, tokenPresent: bool, metrics: Metrics)

  /** latest: the newest metric snapshot. */
  datatype Post = Post(seller: nat, raffle: nat, status: PostStatus, latest: Option<Snapshot>)

  datatype Settlement = Settlement(post: nat, seller: nat, score: nat)

  datatype Desk = Desk(
    tiers: Option<seq<Tier>>,
    minCharge: int,
    grants: seq<Grant>,
    redemptions: seq<Redemption>,
    reversals: seq<Reversal>,
    posts: seq<Post>,
    settlements: seq<Settlement>)

  datatype Refusal = OwnRaffle | GrantUnavailable | TooSmall | NoSuchPost | Interrupted

  datatype Answer = Answer(desk: Desk, error: Option<Refusal>)

  function Ok(d: Desk): Answer {
    Answer(d, None)
  }

  function Fail(d: Desk, e: Refusal): Answer {
    Answer(d, Some(e))
  }

  function Opening(tiers: Option<seq<Tier>>, minCharge: int): Desk {
    Desk(tiers, minCharge, [], [], [], [], [])
  }

  // ----- Checkout -----

  datatype Checkout = Checkout(buyer: nat, raffle: nat, seller: nat, reservation: nat, gross: int)

  function TermsOf(d: Desk, g: Grant): BonusTerms {
    BonusTerms(g.percent, g.cap, d.minCharge)
  }

  predicate Usable(g: Grant, buyer: nat, now: Time) {
    g.seller == buyer && g.status == Available && g.expiresAt > now
  }

  /** Reserve a grant for a checkout, or nothing when the checkout names none. */
  function Reserve(d: Desk, grant: Option<nat>, c: Checkout, now: Time): Answer {
    if grant.None? then Ok(d)
    else if c.seller == c.buyer then Fail(d, OwnRaffle)
    else if grant.value >= |d.grants| || !Usable(d.grants[grant.value], c.buyer, now) then Fail(d, GrantUnavailable)
    else
      var g := d.grants[grant.value];
      match BuildPreview(TermsOf(d, g), c.gross)
      case Failure(_) => Fail(d, TooSmall)
      case Success(p) =>
        var r := Redemption(grant.value, c.buyer, c.raffle, c.reservation, p.gross, p.discount, p.charged, Held, None, None);
        Ok(d.(grants := d.grants[grant.value := g.(status := Reserved)], redemptions := d.redemptions + [r]))
  }

  /** One redemption and its grant change together. */
  function Change(d: Desk, k: nat, r: Redemption, g: Grant): Desk
    requires k < |d.redemptions| && d.redemptions[k].grant < |d.grants|
  {
    d.(redemptions := d.redemptions[k := r], grants := d.grants[d.redemptions[k].grant := g])
  }

  /** found: the row the lookup picked among the held redemptions of this reservation and grant. */
  predicate Awaits(d: Desk, k: nat, reservation: nat, grant: nat) {
    && k < |d.redemptions|
    && d.redemptions[k].reservation == reservation
    && d.redemptions[k].grant == grant
    && d.redemptions[k].status == Held
  }

  function MarkUsed(d: Desk, found: Option<nat>, reservation: Option<nat>, grant: Option<nat>, purchase: nat, now: Time): Desk {
    if reservation.None? || grant.None? || found.None? || !Awaits(d, found.value, reservation.value, grant.value) then d
    else if grant.value >= |d.grants| then d
    else
      var r := d.redemptions[found.value];
      Change(d, found.value, r.(status := Consumed, purchase := Some(purchase), resolvedAt := Some(now)),
              d.grants[r.grant].(status := Used, usedAt := Some(now)))
  }

  predicate HeldFor(r: Redemption, reservation: nat) {
    r.reservation == reservation && r.status == Held
  }

  function ReleaseOne(d: Desk, k: nat, now: Time): Desk {
    if k >= |d.redemptions| || d.redemptions[k].grant >= |d.grants| then d
    else
      var r := d.redemptions[k];
      Change(d, k, r.(status := Released, resolvedAt := Some(now)), d.grants[r.grant].(status := Available))
  }

  /** Release every redemption that was held for a reservation when the list was read. */
  function Release(d: Desk, reservation: nat, now: Time): Desk {
    Fold(d, |d.redemptions|, ReleaseListed(d, reservation, now))
  }

  function ReleaseListed(snapshot: Desk, reservation: nat, now: Time): (Desk, nat) -> Desk {
    (d: Desk, k: nat) =>
      if k < |snapshot.redemptions| && HeldFor(snapshot.redemptions[k], reservation) then ReleaseOne(d, k, now) else d
  }

  predicate ConsumedBy(r: Redemption, purchase: nat) {
    r.purchase == Some(purchase) && r.status == Consumed
  }

  /** Without a positive amount the refund counts as full; otherwise it must come within a cent of the charge. */
  predicate IsFullRefund(r: Redemption, refund: Option<real>) {
    refund.None? || refund.value <= 0.0 || RoundHalfUp(refund.value) >= r.charged - 1
  }

  function ReverseOne(d: Desk, k: nat, now: Time): Desk {
    if k >= |d.redemptions| || d.redemptions[k].grant >= |d.grants| then d
    else
      var r := d.redemptions[k];
      Change(d, k, r.(status := Reversed, resolvedAt := Some(now)), d.grants[r.grant].(status := Available, usedAt := None)).(
      reversals := d.reversals + [Reversal(k, r.buyer, r.raffle, r.discount, r.gross, r.charged)])
  }

  /** Take back every bonus used in a purchase that was refunded in full. */
  function Reinstate(d: Desk, purchase: nat, refund: Option<real>, now: Time): Desk {
    Fold(d, |d.redemptions|, ReverseListed(d, purchase, refund, now))
  }

  function ReverseListed(snapshot: Desk, purchase: nat, refund: Option<real>, now: Time): (Desk, nat) -> Desk {
    (d: Desk, k: nat) =>
      if k < |snapshot.redemptions| && ConsumedBy(snapshot.redemptions[k], purchase) && IsFullRefund(snapshot.redemptions[k], refund)
      then ReverseOne(d, k, now)
      else d
  }

  // ----- Posts -----

  function Submit(d: Desk, seller: nat, raffle: nat): Desk {
    d.(posts := d.posts + [Post(seller, raffle, PendingValidation, None)])
  }

  /** seen: what the loader found, or nothing when it failed. */
  function Validate(d: Desk, p: nat, seen: Option<Snapshot>): Answer {
    if p >= |d.posts| then Fail(d, NoSuchPost)
    else
      var nothing := Snapshot(false, false, Metrics(None, None, None, None, 0, 0, 0));
      var status :=
        if seen.None? then TechnicalReview
        else if seen.value.accessible && seen.value.tokenPresent then Validated
        else Disqualified;
      var latest := if seen.None? then nothing else seen.value;
      Ok(d.(posts := d.posts[p := d.posts[p].(status := status, latest := Some(latest))]))
  }

  function Relabel(d: Desk, p: nat, status: PostStatus): Answer {
    if p >= |d.posts| then Fail(d, NoSuchPost)
    else Ok(d.(posts := d.posts[p := d.posts[p].(status := status)]))
  }

  /** Back to pending, whatever the status was. */
  function Retry(d: Desk, p: nat): Answer {
    Relabel(d, p, PendingValidation)
  }

  function AdminDisqualify(d: Desk, p: nat): Answer {
    Relabel(d, p, Disqualified)
  }

  predicate Settleable(post: Post) {
    post.latest.Some? && post.latest.value.accessible && post.latest.value.tokenPresent
  }

  predicate HasSettlement(d: Desk, p: nat) {
    exists j :: 0 <= j < |d.settlements| && d.settlements[j].post == p
  }

  /** Where the process dies while a post is settled, if it does. */
  datatype Crash = NoCrash | AfterSettlement | AfterGrant

  function GrantFrom(t: Tier, seller: nat, settlement: nat, now: Time): Grant {
    Grant(seller, settlement, t.percent, t.cap, now + GRANT_LIFETIME, Available, None)
  }

  function WithSettlement(d: Desk, p: nat): Desk
    requires p < |d.posts| && d.posts[p].latest.Some?
  {
    d.(settlements := d.settlements + [Settlement(p, d.posts[p].seller, Score(d.posts[p].latest.value.metrics))])
  }

  function WithGrant(d: Desk, p: nat, settlement: nat, now: Time): Desk
    requires p < |d.posts| && d.posts[p].latest.Some?
  {
    match TierFor(d.tiers, d.posts[p].latest.value.metrics)
    case None => d
    case Some(t) => d.(grants := d.grants + [GrantFrom(t, d.posts[p].seller, settlement, now)])
  }

  /** Settlement, grant and status are three separate writes. */
  function SettlePost(d: Desk, p: nat, now: Time, crash: Crash): Answer {
    if p >= |d.posts| || HasSettlement(d, p) then Ok(d)
    else if !Settleable(d.posts[p]) then Relabel(d, p, Disqualified)
    else
      var settled := WithSettlement(d, p);
      var granted := WithGrant(settled, p, |d.settlements|, now);
      match crash
      case AfterSettlement => Fail(settled, Interrupted)
      case AfterGrant => Fail(granted, Interrupted)
      case NoCrash => Relabel(granted, p, Settled)
  }

  // ----- Runs -----

  datatype PromotionCall =
    | CallReserve(grant: Option<nat>, checkout: Checkout)
    | CallMarkUsed(found: Option<nat>, reservation: Option<nat>, grant: Option<nat>, purchase: nat)
    | CallRelease(held: nat)
    | CallReinstate(purchase: nat, refund: Option<real>)
    | CallSubmit(seller: nat, raffle: nat)
    | CallValidate(post: nat, seen: Option<Snapshot>)
    | CallRetry(post: nat)
    | CallDisqualify(post: nat)
    | CallSettle(post: nat, crash: Crash)

  datatype PromotionEvent = PromotionEvent(at: Time, call: PromotionCall)

  function Apply(d: Desk, e: PromotionEvent): Desk {
    match e.call
    case CallReserve(grant, checkout) => Reserve(d, grant, checkout, e.at).desk
    case CallMarkUsed(found, reservation, grant, purchase) => MarkUsed(d, found, reservation, grant, purchase, e.at)
    case CallRelease(held) => Release(d, held, e.at)
    case CallReinstate(purchase, refund) => Reinstate(d, purchase, refund, e.at)
    case CallSubmit(seller, raffle) => Submit(d, seller, raffle)
    case CallValidate(post, seen) => Validate(d, post, seen).desk
    case CallRetry(post) => Retry(d, post).desk
    case CallDisqualify(post) => AdminDisqualify(d, post).desk
    case CallSettle(post, crash) => SettlePost(d, post, e.at, crash).desk
  }

  function Run(d: Desk, events: seq<PromotionEvent>): Desk {
    if |events| == 0 then d
    else Apply(Run(d, events[..|events| - 1]), events[|events| - 1])
  }
}
