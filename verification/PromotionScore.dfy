/** Scoring of a promotion post and the bonus tier its score reaches. Scores are hundredths of a point. */
module PromotionScore {
  import opened Wrappers

  /** What the latest snapshot of a post shows; the network's own counters may be missing. */
  datatype Metrics = Metrics(
    likes: Option<nat>,
    comments: Option<nat>,
    reposts: Option<nat>,
    views: Option<nat>,
    clicks: nat,
    registrations: nat,
    purchases: nat)

  function OrZero(n: Option<nat>): nat {
    if n.Some? then n.value else 0
  }

  /** Base, engagement and conversion scores together, in thousandths of a point. */
  function ExactScore(m: Metrics): nat {
    10_000
    + 10 * OrZero(m.likes) + 250 * OrZero(m.comments) + 500 * OrZero(m.reposts) + OrZero(m.views)
    + 100 * m.clicks + 3_000 * m.registrations + 1_500 * m.purchases
  }

  /** Rounded to two decimals, ties upwards. */
  function Score(m: Metrics): nat {
    (ExactScore(m) + 5) / 10
  }

  /**
   The score is the weighted sum of the figures to the nearest hundredth of a point: ten points to start with,
   0.01 a like, 0.25 a comment, 0.5 a repost, 0.001 a view, 0.1 a click, 3 a registration, 1.5 a purchase.
   */
  lemma ScoreIsNearest(m: Metrics)
    ensures var points := 10.0
                          + OrZero(m.likes) as real * 0.01 + OrZero(m.comments) as real * 0.25
                          + OrZero(m.reposts) as real * 0.5 + OrZero(m.views) as real * 0.001
                          + m.clicks as real * 0.1 + m.registrations as real * 3.0 + m.purchases as real * 1.5;
            100.0 * points - 0.5 < Score(m) as real <= 100.0 * points + 0.5
  {
  }

  ghost predicate AtLeast(a: Metrics, b: Metrics) {
    && OrZero(a.likes) >= OrZero(b.likes)
    && OrZero(a.comments) >= OrZero(b.comments)
    && OrZero(a.reposts) >= OrZero(b.reposts)
    && OrZero(a.views) >= OrZero(b.views)
    && a.clicks >= b.clicks
    && a.registrations >= b.registrations
    && a.purchases >= b.purchases
  }

  datatype Tier = Tier(minScore: real, percent: real, cap: int)

  const DEFAULT_TIERS := [Tier(6000.0, 15.0, 1_500_000), Tier(3000.0, 10.0, 1_000_000), Tier(1000.0, 5.0, 500_000)]

  /** Put one tier behind all that ask for at least as much: the sort is stable. */
  function Insert(t: Tier, sorted: seq<Tier>): seq<Tier> {
    if |sorted| == 0 || sorted[0].minScore < t.minScore then [t] + sorted
    else [sorted[0]] + Insert(t, sorted[1..])
  }

  /** Tiers by falling minimum score. */
  function SortTiers(tiers: seq<Tier>): seq<Tier> {
    if |tiers| == 0 then [] else Insert(tiers[|tiers| - 1], SortTiers(tiers[..|tiers| - 1]))
  }

  function TiersInForce(configured: Option<seq<Tier>>): seq<Tier> {
    if configured.Some? && |configured.value| > 0 then SortTiers(configured.value) else DEFAULT_TIERS
  }

  function FirstReached(tiers: seq<Tier>, score: nat): Option<Tier> {
    if |tiers| == 0 then None
    else if score as real >= tiers[0].minScore then Some(tiers[0])
    else FirstReached(tiers[1..], score)
  }

  function TierAt(configured: Option<seq<Tier>>, score: nat): Option<Tier> {
    FirstReached(TiersInForce(configured), score)
  }

  function TierFor(configured: Option<seq<Tier>>, m: Metrics): Option<Tier> {
    TierAt(configured, Score(m))
  }

  // ----- The tier that is picked -----

  ghost predicate Falling(tiers: seq<Tier>) {
    forall j, k :: 0 <= j < k < |tiers| ==> tiers[j].minScore >= tiers[k].minScore
  }

  lemma {:induction false} InsertKeepsOrder(t: Tier, sorted: seq<Tier>)
    requires Falling(sorted)
    ensures Falling(Insert(t, sorted))
    ensures forall u :: u in Insert(t, sorted) <==> u == t || u in sorted
  {
    if |sorted| > 0 && sorted[0].minScore >= t.minScore {
      InsertKeepsOrder(t, sorted[1..]);
      assert sorted == [sorted[0]] + sorted[1..];
      var rest := Insert(t, sorted[1..]);
      forall k | 0 <= k < |rest| ensures sorted[0].minScore >= rest[k].minScore {
        assert rest[k] in rest;
      }
    }
  }

  lemma {:induction false} SortIsFalling(tiers: seq<Tier>)
    ensures Falling(SortTiers(tiers))
    ensures forall u :: u in SortTiers(tiers) <==> u in tiers
  {
    if |tiers| > 0 {
      var last := |tiers| - 1;
      SortIsFalling(tiers[..last]);
      InsertKeepsOrder(tiers[last], SortTiers(tiers[..last]));
      assert tiers == tiers[..last] + [tiers[last]];
    }
  }

  lemma {:induction false} FirstIsGreatest(tiers: seq<Tier>, score: nat)
    requires Falling(tiers)
    ensures match FirstReached(tiers, score)
            case None => forall u :: u in tiers ==> score as real < u.minScore
            case Some(t) => && t in tiers && t.minScore <= score as real
                            && forall u :: u in tiers && u.minScore <= score as real ==> u.minScore <= t.minScore
  {
    if |tiers| > 0 {
      assert tiers == [tiers[0]] + tiers[1..];
      if score as real >= tiers[0].minScore {
        forall u | u in tiers ensures u.minScore <= tiers[0].minScore {
          var k :| 0 <= k < |tiers| && tiers[k] == u;
        }
      } else {
        FirstIsGreatest(tiers[1..], score);
      }
    }
  }

  /** The tiers that can be granted: the configured ones if there are any, or the defaults. */
  ghost predicate Offered(configured: Option<seq<Tier>>, t: Tier) {
    if configured.Some? && |configured.value| > 0 then t in configured.value else t in DEFAULT_TIERS
  }

  /** The granted tier is the most demanding one the score reaches; none is granted exactly when none is reached. */
  lemma TierIsGreatestReached(configured: Option<seq<Tier>>, score: nat)
    ensures match TierAt(configured, score)
            case None => forall u :: Offered(configured, u) ==> score as real < u.minScore
            case Some(t) => && Offered(configured, t) && t.minScore <= score as real
                            && forall u :: Offered(configured, u) && u.minScore <= score as real ==> u.minScore <= t.minScore
  {
    if configured.Some? && |configured.value| > 0 {
      SortIsFalling(configured.value);
    }
    FirstIsGreatest(TiersInForce(configured), score);
  }

  lemma BetterFiguresScoreHigher(a: Metrics, b: Metrics)
    requires AtLeast(a, b)
    ensures Score(a) >= Score(b)
  {
  }

  lemma HigherScoreNeverLowerTier(configured: Option<seq<Tier>>, high: nat, low: nat)
    requires high >= low && TierAt(configured, low).Some?
    ensures TierAt(configured, high).Some?
    ensures TierAt(configured, low).value.minScore <= TierAt(configured, high).value.minScore
  {
    TierIsGreatestReached(configured, high);
    TierIsGreatestReached(configured, low);
  }

  /** Better figures never lower the tier, despite the rounding of the score. */
  lemma BetterFiguresNeverLowerTheTier(configured: Option<seq<Tier>>, a: Metrics, b: Metrics)
    requires AtLeast(a, b) && TierFor(configured, b).Some?
    ensures TierFor(configured, a).Some?
    ensures TierFor(configured, b).value.minScore <= TierFor(configured, a).value.minScore
  {
    BetterFiguresScoreHigher(a, b);
    HigherScoreNeverLowerTier(configured, Score(a), Score(b));
  }

  /** With the default tiers any accessible post earns at least the smallest bonus: the base score alone reaches it. */
  lemma DefaultsAlwaysGrant(m: Metrics)
    ensures TierFor(None, m).Some? && TierFor(None, m).value.percent >= 5.0
  {
    TierIsGreatestReached(None, Score(m));
    assert Offered(None, DEFAULT_TIERS[2]);
  }
}
