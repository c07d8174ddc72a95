/**
 * The clinical site ranking: every site of every study gets six sub-scores
 * (each metric min-max scaled over all sites, the "lower is better" ones
 * inverted), a weighted composite, a competition rank within its study and a
 * performance tier; the table is then ordered by study and rank. Arithmetic
 * is over `real`, so the bounds below are exact.
 */
module SiteRankings {
  import opened Wrappers
  import opened Text
  import opened Sorting

  /** A row of the sites table, with the columns the ranking reads. */
  datatype Site = Site(
    studyId: string, siteId: string, siteName: string, country: string, investigator: string,
    enrollmentRatePerMonth: real, qualityScore: real, screenFailRate: real,
    queryRatePer100Crfs: real, protocolDeviations: real, daysToActivate: real)

  /** The six metrics, in the order of the weight table. */
  datatype Metric = EnrollmentRate | Quality | ScreenFail | QueryRate | Deviations | Activation

  function Metrics(): seq<Metric> {
    [EnrollmentRate, Quality, ScreenFail, QueryRate, Deviations, Activation]
  }

  /** Screen failures, queries, deviations and activation time are better
      when lower. */
  predicate LowerIsBetter(m: Metric) {
    m != EnrollmentRate && m != Quality
  }

  function Value(s: Site, m: Metric): real {
    match m
    case EnrollmentRate => s.enrollmentRatePerMonth
    case Quality => s.qualityScore
    case ScreenFail => s.screenFailRate
    case QueryRate => s.queryRatePer100Crfs
    case Deviations => s.protocolDeviations
    case Activation => s.daysToActivate
  }

  /** `sites[column]` */
  function Column(sites: seq<Site>, m: Metric): (c: seq<real>)
    ensures |c| == |sites|
  {
    seq(|sites|, i requires 0 <= i < |sites| => Value(sites[i], m))
  }

  // ---------------------------------------------------------------------------
  // min_max_scale
  // ---------------------------------------------------------------------------

  /** `series.min()` of a non-empty column. */
  function Min(xs: seq<real>): real
    requires |xs| > 0
  {
    if |xs| == 1 then xs[0]
    else
      var t := Min(xs[1..]);
      if xs[0] <= t then xs[0] else t
  }

  /** `series.max()` of a non-empty column. */
  function Max(xs: seq<real>): real
    requires |xs| > 0
  {
    if |xs| == 1 then xs[0]
    else
      var t := Max(xs[1..]);
      if xs[0] >= t then xs[0] else t
  }

  /** The minimum and maximum are values of the column, below and above
      every other. */
  lemma {:induction false} MinMaxBounds(xs: seq<real>)
    requires |xs| > 0
    ensures Min(xs) in xs && Max(xs) in xs
    ensures forall i :: 0 <= i < |xs| ==> Min(xs) <= xs[i] <= Max(xs)
  {
    if |xs| > 1 {
      MinMaxBounds(xs[1..]);
      assert forall i :: 1 <= i < |xs| ==> xs[i] == xs[1..][i - 1];
    }
  }

  /** All values of the column are the same. */
  predicate Constant(xs: seq<real>) {
    forall i, j :: 0 <= i < |xs| && 0 <= j < |xs| ==> xs[i] == xs[j]
  }

  /** `(x - mn) / (mx - mn)` */
  function Rescale(x: real, mn: real, mx: real): real
    requires mn != mx
  {
    (x - mn) / (mx - mn)
  }

  /** `min_max_scale(series)`: 0.5 everywhere when the column is constant,
      otherwise `(x - min) / (max - min)`. An empty column stays empty. */
  function MinMaxScale(xs: seq<real>): (r: seq<real>)
    ensures |r| == |xs|
  {
    if xs == [] then []
    else
      var mn, mx := Min(xs), Max(xs);
      if mx == mn then seq(|xs|, _ => 0.5)
      else seq(|xs|, i requires 0 <= i < |xs| => Rescale(xs[i], mn, mx))
  }

  /** Rescaling maps [mn, mx] onto [0, 1], mn to 0 and mx to 1, keeping the
      order of values in both directions. */
  lemma RescaleFacts(x: real, y: real, mn: real, mx: real)
    requires mn < mx
    ensures mn <= x <= mx ==> 0.0 <= Rescale(x, mn, mx) <= 1.0
    ensures Rescale(mn, mn, mx) == 0.0 && Rescale(mx, mn, mx) == 1.0
    ensures x <= y <==> Rescale(x, mn, mx) <= Rescale(y, mn, mx)
  {
    var d := mx - mn;
    assert (x - mn) / d <= (y - mn) / d <==> x - mn <= y - mn;
    if mn <= x <= mx {
      assert (x - mn) / d <= d / d;
    }
  }

  /** The column is constant exactly when its minimum is its maximum. */
  lemma {:induction false} ConstantIffFlat(xs: seq<real>)
    requires |xs| > 0
    ensures Constant(xs) <==> Min(xs) == Max(xs)
  {
    MinMaxBounds(xs);
    if Min(xs) == Max(xs) {
      forall i, j | 0 <= i < |xs| && 0 <= j < |xs| ensures xs[i] == xs[j] {
      }
    } else {
      var a :| 0 <= a < |xs| && xs[a] == Min(xs);
      var b :| 0 <= b < |xs| && xs[b] == Max(xs);
      assert xs[a] != xs[b];
    }
  }

  /** Scaled values lie in [0, 1], and a constant column scales to 0.5
      throughout. */
  lemma {:induction false} ScaleRange(xs: seq<real>)
    ensures forall i :: 0 <= i < |xs| ==> 0.0 <= MinMaxScale(xs)[i] <= 1.0
    ensures |xs| > 0 && Constant(xs) ==> forall i :: 0 <= i < |xs| ==> MinMaxScale(xs)[i] == 0.5
  {
    if xs != [] {
      ConstantIffFlat(xs);
      MinMaxBounds(xs);
      var mn, mx := Min(xs), Max(xs);
      if mx != mn {
        forall i | 0 <= i < |xs| ensures 0.0 <= MinMaxScale(xs)[i] <= 1.0 {
          RescaleFacts(xs[i], xs[i], mn, mx);
        }
      }
    }
  }

  /** In a column that is not constant, the minimum scales to 0 and the
      maximum to 1. */
  lemma ScaleEndpoints(xs: seq<real>, i: int)
    requires 0 <= i < |xs| && !Constant(xs)
    ensures xs[i] == Min(xs) ==> MinMaxScale(xs)[i] == 0.0
    ensures xs[i] == Max(xs) ==> MinMaxScale(xs)[i] == 1.0
  {
    ConstantIffFlat(xs);
    MinMaxBounds(xs);
    RescaleFacts(xs[i], xs[i], Min(xs), Max(xs));
  }

  /** Scaling keeps the order of the values; in a column that is not
      constant it also reflects it. */
  lemma ScaleOrder(xs: seq<real>, i: int, j: int)
    requires 0 <= i < |xs| && 0 <= j < |xs|
    ensures xs[i] <= xs[j] ==> MinMaxScale(xs)[i] <= MinMaxScale(xs)[j]
    ensures !Constant(xs) ==> (MinMaxScale(xs)[i] <= MinMaxScale(xs)[j] <==> xs[i] <= xs[j])
  {
    ConstantIffFlat(xs);
    MinMaxBounds(xs);
    var mn, mx := Min(xs), Max(xs);
    if mx != mn {
      RescaleFacts(xs[i], xs[j], mn, mx);
    }
  }

  // ---------------------------------------------------------------------------
  // Sub-scores and the weighted composite
  // ---------------------------------------------------------------------------

  /** The sub-score of site `i` for metric `m`: its scaled value over all
      sites of all studies, inverted (`1 - scaled`) when lower is better. */
  function Score(sites: seq<Site>, m: Metric, i: int): real
    requires 0 <= i < |sites|
  {
    ScoreColumn(sites, m)[i]
  }

  /** The sub-score column of metric `m`: `min_max_scale(sites[col])`, or
      `1 - min_max_scale(sites[col])` when lower is better. */
  function ScoreColumn(sites: seq<Site>, m: Metric): (c: seq<real>)
    ensures |c| == |sites|
  {
    var scaled := MinMaxScale(Column(sites, m));
    if LowerIsBetter(m) then Invert(scaled) else scaled
  }

  /** `1 - scaled` for a whole column. */
  function Invert(xs: seq<real>): (r: seq<real>)
    ensures |r| == |xs|
  {
    seq(|xs|, i requires 0 <= i < |xs| => 1.0 - xs[i])
  }

  /** Every sub-score lies in [0, 1]. */
  lemma ScoreRange(sites: seq<Site>, m: Metric, i: int)
    requires 0 <= i < |sites|
    ensures 0.0 <= Score(sites, m, i) <= 1.0
  {
    ScaleRange(Column(sites, m));
  }

  /** A better raw value never gives a lower sub-score: higher is better
      for enrollment and quality, lower for the other four. */
  lemma ScoreOrder(sites: seq<Site>, m: Metric, i: int, j: int)
    requires 0 <= i < |sites| && 0 <= j < |sites|
    ensures !LowerIsBetter(m) && Value(sites[i], m) <= Value(sites[j], m) ==> Score(sites, m, i) <= Score(sites, m, j)
    ensures LowerIsBetter(m) && Value(sites[i], m) <= Value(sites[j], m) ==> Score(sites, m, j) <= Score(sites, m, i)
  {
    ScaleOrder(Column(sites, m), i, j);
  }

  /** The scaling runs over the whole table, not per study: two tables with
      the same metric columns give every site the same sub-score, whatever
      the studies. */
  lemma ScoreIgnoresStudy(sites: seq<Site>, other: seq<Site>, m: Metric, i: int)
    requires |sites| == |other| && 0 <= i < |sites|
    requires forall k :: 0 <= k < |sites| ==> Value(sites[k], m) == Value(other[k], m)
    ensures Score(sites, m, i) == Score(other, m, i)
  {
    assert Column(sites, m) == Column(other, m);
  }

  /** The weights of the six metrics, in the order of `Metrics()`. */
  function Weights(): seq<real> {
    [0.25, 0.20, 0.15, 0.15, 0.15, 0.10]
  }

  function Sum(ws: seq<real>): real {
    if ws == [] then 0.0 else Sum(ws[..|ws| - 1]) + ws[|ws| - 1]
  }

  /** The weights are non-negative and add up to exactly one. */
  lemma WeightsSumToOne()
    ensures |Weights()| == |Metrics()|
    ensures forall k :: 0 <= k < |Weights()| ==> Weights()[k] >= 0.0
    ensures Sum(Weights()) == 1.0
  {
    var w := Weights();
    assert Sum(w[..1]) == 0.25 by { assert w[..1][..0] == []; }
    assert Sum(w[..2]) == 0.45 by { assert w[..2][..1] == w[..1]; }
    assert Sum(w[..3]) == 0.60 by { assert w[..3][..2] == w[..2]; }
    assert Sum(w[..4]) == 0.75 by { assert w[..4][..3] == w[..3]; }
    assert Sum(w[..5]) == 0.90 by { assert w[..5][..4] == w[..4]; }
    assert w[..6][..5] == w[..5] && w[..6] == w;
  }

  /** `sum(score * w for each weighted column)`, added up in table order. */
  function WeightedSum(scores: seq<real>, ws: seq<real>): real
    requires |scores| == |ws|
  {
    if ws == [] then 0.0
    else WeightedSum(scores[..|ws| - 1], ws[..|ws| - 1]) + scores[|ws| - 1] * ws[|ws| - 1]
  }

  lemma MulUnit(a: real, w: real)
    requires 0.0 <= a <= 1.0 && w >= 0.0
    ensures 0.0 <= a * w <= w
  {
  }

  lemma MulMonotone(a: real, b: real, w: real)
    requires a <= b && w >= 0.0
    ensures a * w <= b * w
  {
  }

  /** With non-negative weights and scores in [0, 1], the weighted sum lies
      between 0 and the total weight. */
  lemma {:induction false} WeightedSumRange(scores: seq<real>, ws: seq<real>)
    requires |scores| == |ws|
    requires forall k :: 0 <= k < |ws| ==> ws[k] >= 0.0 && 0.0 <= scores[k] <= 1.0
    ensures 0.0 <= WeightedSum(scores, ws) <= Sum(ws)
  {
    if ws != [] {
      var n := |ws| - 1;
      WeightedSumRange(scores[..n], ws[..n]);
      MulUnit(scores[n], ws[n]);
      assert WeightedSum(scores, ws) == WeightedSum(scores[..n], ws[..n]) + scores[n] * ws[n];
      assert Sum(ws) == Sum(ws[..n]) + ws[n];
      assert WeightedSum(scores[..n], ws[..n]) <= Sum(ws[..n]);
      assert scores[n] * ws[n] <= ws[n];
    }
  }

  /** Raising any sub-score never lowers the weighted sum. */
  lemma {:induction false} WeightedSumMonotone(s: seq<real>, t: seq<real>, ws: seq<real>)
    requires |s| == |ws| && |t| == |ws|
    requires forall k :: 0 <= k < |ws| ==> ws[k] >= 0.0 && s[k] <= t[k]
    ensures WeightedSum(s, ws) <= WeightedSum(t, ws)
  {
    if ws != [] {
      var n := |ws| - 1;
      WeightedSumMonotone(s[..n], t[..n], ws[..n]);
      MulMonotone(s[n], t[n], ws[n]);
      assert WeightedSum(s, ws) == WeightedSum(s[..n], ws[..n]) + s[n] * ws[n];
      assert WeightedSum(t, ws) == WeightedSum(t[..n], ws[..n]) + t[n] * ws[n];
    }
  }

  /** The six sub-scores of site `i`, in the order of the weights. */
  function SubScores(sites: seq<Site>, i: int): (r: seq<real>)
    requires 0 <= i < |sites|
    ensures |r| == |Metrics()|
  {
    seq(|Metrics()|, k requires 0 <= k < |Metrics()| => Score(sites, Metrics()[k], i))
  }

  /** `composite_rank_score` of site `i`. */
  function Composite(sites: seq<Site>, i: int): real
    requires 0 <= i < |sites|
  {
    WeightedSum(SubScores(sites, i), Weights())
  }

  lemma SubScoresRange(sites: seq<Site>, i: int)
    requires 0 <= i < |sites|
    ensures forall k :: 0 <= k < |SubScores(sites, i)| ==> 0.0 <= SubScores(sites, i)[k] <= 1.0
  {
    var s := SubScores(sites, i);
    forall k | 0 <= k < |s| ensures 0.0 <= s[k] <= 1.0 {
      ScoreRange(sites, Metrics()[k], i);
    }
  }

  /** The composite score lies in [0, 1]. */
  lemma CompositeRange(sites: seq<Site>, i: int)
    requires 0 <= i < |sites|
    ensures 0.0 <= Composite(sites, i) <= 1.0
  {
    WeightsSumToOne();
    SubScoresRange(sites, i);
    WeightedSumRange(SubScores(sites, i), Weights());
  }

  /** A site at least as good as another on every metric scores at least as
      high. */
  lemma CompositeMonotone(sites: seq<Site>, i: int, j: int)
    requires 0 <= i < |sites| && 0 <= j < |sites|
    requires forall m :: !LowerIsBetter(m) ==> Value(sites[i], m) <= Value(sites[j], m)
    requires forall m :: LowerIsBetter(m) ==> Value(sites[j], m) <= Value(sites[i], m)
    ensures Composite(sites, i) <= Composite(sites, j)
  {
    WeightsSumToOne();
    var s, t := SubScores(sites, i), SubScores(sites, j);
    forall k | 0 <= k < |s| ensures s[k] <= t[k] {
      var m := Metrics()[k];
      ScoreOrder(sites, m, i, j);
      ScoreOrder(sites, m, j, i);
    }
    WeightedSumMonotone(s, t, Weights());
  }

  // ---------------------------------------------------------------------------
  // rank_within_study: competition ranking, best score first
  // ---------------------------------------------------------------------------

  /** How many entries of `study` score strictly above `x`. */
  function CountAbove(entries: seq<(string, real)>, study: string, x: real): nat {
    if entries == [] then 0
    else (if entries[0].0 == study && entries[0].1 > x then 1 else 0) + CountAbove(entries[1..], study, x)
  }

  /** How many entries of `study` score exactly `x`. */
  function CountEqual(entries: seq<(string, real)>, study: string, x: real): nat {
    if entries == [] then 0
    else (if entries[0].0 == study && entries[0].1 == x then 1 else 0) + CountEqual(entries[1..], study, x)
  }

  /** How many entries of `study` score strictly between `y` and `x`. */
  function CountBetween(entries: seq<(string, real)>, study: string, y: real, x: real): nat {
    if entries == [] then 0
    else (if entries[0].0 == study && y < entries[0].1 < x then 1 else 0) + CountBetween(entries[1..], study, y, x)
  }

  /** How many entries belong to `study`. */
  function CountStudy(entries: seq<(string, real)>, study: string): nat {
    if entries == [] then 0
    else (if entries[0].0 == study then 1 else 0) + CountStudy(entries[1..], study)
  }

  /** `rank(ascending=False, method="min")` within the entry's study: one
      more than the number of its study's entries that score higher. */
  function CompetitionRank(entries: seq<(string, real)>, i: int): int
    requires 0 <= i < |entries|
  {
    1 + CountAbove(entries, entries[i].0, entries[i].1)
  }

  /** Counting down from `x` to a lower `y` passes the ties of `x` and the
      scores strictly between. */
  lemma {:induction false} CountAboveSplit(entries: seq<(string, real)>, study: string, y: real, x: real)
    requires y < x
    ensures CountAbove(entries, study, y) == CountAbove(entries, study, x) + CountEqual(entries, study, x) + CountBetween(entries, study, y, x)
  {
    if entries != [] {
      CountAboveSplit(entries[1..], study, y, x);
    }
  }

  /** No entry scores above `x` exactly when none of the study's entries
      does. */
  lemma {:induction false} CountAboveZero(entries: seq<(string, real)>, study: string, x: real)
    ensures CountAbove(entries, study, x) == 0 <==> forall j :: 0 <= j < |entries| && entries[j].0 == study ==> entries[j].1 <= x
  {
    if entries != [] {
      CountAboveZero(entries[1..], study, x);
      assert forall j :: 1 <= j < |entries| ==> entries[j] == entries[1..][j - 1];
    }
  }

  /** No entry lies strictly between when none of the study's does. */
  lemma {:induction false} CountBetweenZero(entries: seq<(string, real)>, study: string, y: real, x: real)
    requires forall j :: 0 <= j < |entries| && entries[j].0 == study ==> !(y < entries[j].1 < x)
    ensures CountBetween(entries, study, y, x) == 0
  {
    if entries != [] {
      assert forall j :: 1 <= j < |entries| ==> entries[j] == entries[1..][j - 1];
      CountBetweenZero(entries[1..], study, y, x);
    }
  }

  /** An entry counts among the ties of its own score. */
  lemma {:induction false} CountEqualSelf(entries: seq<(string, real)>, i: int)
    requires 0 <= i < |entries|
    ensures CountEqual(entries, entries[i].0, entries[i].1) >= 1
  {
    if i > 0 {
      CountEqualSelf(entries[1..], i - 1);
    }
  }

  /** The entries above `x` and those equal to it are part of the study. */
  lemma {:induction false} CountsWithinStudy(entries: seq<(string, real)>, study: string, x: real)
    ensures CountAbove(entries, study, x) + CountEqual(entries, study, x) <= CountStudy(entries, study)
  {
    if entries != [] {
      CountsWithinStudy(entries[1..], study, x);
    }
  }

  /** Ranks run from 1 to the size of the study; rank 1 goes exactly to the
      entries no entry of their study beats. */
  lemma RankRange(entries: seq<(string, real)>, i: int)
    requires 0 <= i < |entries|
    ensures 1 <= CompetitionRank(entries, i) <= CountStudy(entries, entries[i].0)
    ensures CompetitionRank(entries, i) == 1 <==>
              forall j :: 0 <= j < |entries| && entries[j].0 == entries[i].0 ==> entries[j].1 <= entries[i].1
  {
    CountEqualSelf(entries, i);
    CountsWithinStudy(entries, entries[i].0, entries[i].1);
    CountAboveZero(entries, entries[i].0, entries[i].1);
  }

  /** Competition ranking: equal scores share a rank, a strictly lower score
      of the same study ranks at least the ties of the higher one further
      down, and the next distinct lower score ranks exactly that far down
      (1, 1, 3 rather than 1, 1, 2). */
  lemma RankSkipsTies(entries: seq<(string, real)>, i: int, j: int)
    requires 0 <= i < |entries| && 0 <= j < |entries| && entries[i].0 == entries[j].0
    ensures entries[j].1 == entries[i].1 ==> CompetitionRank(entries, j) == CompetitionRank(entries, i)
    ensures entries[j].1 < entries[i].1 ==>
              CompetitionRank(entries, j) >= CompetitionRank(entries, i) + CountEqual(entries, entries[i].0, entries[i].1)
    ensures entries[j].1 < entries[i].1
            && (forall k :: 0 <= k < |entries| && entries[k].0 == entries[i].0 ==> !(entries[j].1 < entries[k].1 < entries[i].1))
            ==> CompetitionRank(entries, j) == CompetitionRank(entries, i) + CountEqual(entries, entries[i].0, entries[i].1)
  {
    var study, x, y := entries[i].0, entries[i].1, entries[j].1;
    if y < x {
      CountAboveSplit(entries, study, y, x);
      if forall k :: 0 <= k < |entries| && entries[k].0 == study ==> !(y < entries[k].1 < x) {
        CountBetweenZero(entries, study, y, x);
      }
    }
  }

  // ---------------------------------------------------------------------------
  // performance_tier: pd.cut with right-closed bins
  // ---------------------------------------------------------------------------

  datatype Tier = Underperforming | BelowAverage | Good | TopPerformer

  /** Position of a tier, worst first. */
  function Level(t: Tier): nat {
    match t
    case Underperforming => 0
    case BelowAverage => 1
    case Good => 2
    case TopPerformer => 3
  }

  /** `pd.cut(score, bins=[0, .35, .55, .75, 1.0])`: no tier outside
      (0, 1]. */
  function TierOf(x: real): Option<Tier> {
    if x <= 0.0 || x > 1.0 then None
    else if x <= 0.35 then Some(Underperforming)
    else if x <= 0.55 then Some(BelowAverage)
    else if x <= 0.75 then Some(Good)
    else Some(TopPerformer)
  }

  /** Each tier is exactly its right-closed bin, and a score of 0 gets no
      tier. */
  lemma TierBins(x: real)
    ensures TierOf(x) == Some(Underperforming) <==> 0.0 < x <= 0.35
    ensures TierOf(x) == Some(BelowAverage) <==> 0.35 < x <= 0.55
    ensures TierOf(x) == Some(Good) <==> 0.55 < x <= 0.75
    ensures TierOf(x) == Some(TopPerformer) <==> 0.75 < x <= 1.0
    ensures TierOf(x) == None <==> x <= 0.0 || x > 1.0
  {
  }

  /** A higher score never gets a lower tier. */
  lemma TierMonotone(x: real, y: real)
    requires 0.0 < x <= y <= 1.0
    ensures TierOf(x).Some? && TierOf(y).Some? && Level(TierOf(x).value) <= Level(TierOf(y).value)
  {
  }

  // ---------------------------------------------------------------------------
  // The ranking table
  // ---------------------------------------------------------------------------

  /** A row of the rankings table (`ranking_cols`). */
  datatype Ranking = Ranking(
    studyId: string, siteId: string, siteName: string, country: string, investigator: string,
    enrollmentScore: real, qualityNorm: real, screenFailScore: real,
    queryScore: real, deviationScore: real, activationScore: real,
    compositeRankScore: real, rankWithinStudy: int, performanceTier: Option<Tier>)

  /** Each site's study and composite score, in table order. */
  function Entries(sites: seq<Site>): (e: seq<(string, real)>)
    ensures |e| == |sites|
  {
    seq(|sites|, i requires 0 <= i < |sites| => (sites[i].studyId, Composite(sites, i)))
  }

  /** A ranking row from a site, its six sub-scores, composite and rank; the
      tier follows from the composite. */
  function MakeRanking(site: Site, s: seq<real>, c: real, rank: int): Ranking
    requires |s| == 6
  {
    Ranking(site.studyId, site.siteId, site.siteName, site.country, site.investigator,
            s[0], s[1], s[2], s[3], s[4], s[5], c, rank, TierOf(c))
  }

  /** The ranking row of site `i`, before sorting. */
  function RankedSite(sites: seq<Site>, i: int): Ranking
    requires 0 <= i < |sites|
  {
    MakeRanking(sites[i], SubScores(sites, i), Composite(sites, i), CompetitionRank(Entries(sites), i))
  }

  function RankedSites(sites: seq<Site>): (r: seq<Ranking>)
    ensures |r| == |sites|
  {
    seq(|sites|, i requires 0 <= i < |sites| => RankedSite(sites, i))
  }

  /** A ranking row keeps its promises: scores in [0, 1], a tier for every
      positive composite, and a rank of at least 1. */
  predicate Consistent(r: Ranking) {
    && 0.0 <= r.enrollmentScore <= 1.0 && 0.0 <= r.qualityNorm <= 1.0
    && 0.0 <= r.screenFailScore <= 1.0 && 0.0 <= r.queryScore <= 1.0
    && 0.0 <= r.deviationScore <= 1.0 && 0.0 <= r.activationScore <= 1.0
    && 0.0 <= r.compositeRankScore <= 1.0
    && r.performanceTier == TierOf(r.compositeRankScore)
    && (r.performanceTier.None? <==> r.compositeRankScore == 0.0)
    && r.rankWithinStudy >= 1
  }

  lemma MakeRankingConsistent(site: Site, s: seq<real>, c: real, rank: int)
    requires |s| == 6 && forall k :: 0 <= k < 6 ==> 0.0 <= s[k] <= 1.0
    requires 0.0 <= c <= 1.0 && rank >= 1
    ensures Consistent(MakeRanking(site, s, c, rank))
  {
  }

  /** Every site's row is consistent, and its rank is at most the size of
      its study. */
  lemma RankedSiteConsistent(sites: seq<Site>, i: int)
    requires 0 <= i < |sites|
    ensures Consistent(RankedSite(sites, i))
    ensures RankedSite(sites, i).rankWithinStudy <= CountStudy(Entries(sites), sites[i].studyId)
  {
    SubScoresRange(sites, i);
    CompositeRange(sites, i);
    RankRange(Entries(sites), i);
    MakeRankingConsistent(sites[i], SubScores(sites, i), Composite(sites, i), CompetitionRank(Entries(sites), i));
  }

  /** `sort_values(["study_id", "rank_within_study"])` */
  predicate StudyThenRank(a: Ranking, b: Ranking) {
    StrLess(a.studyId, b.studyId) || (a.studyId == b.studyId && a.rankWithinStudy <= b.rankWithinStudy)
  }

  lemma StudyThenRankPreorder()
    ensures TotalPreorder(StudyThenRank)
  {
    forall a: Ranking, b: Ranking ensures StudyThenRank(a, b) || StudyThenRank(b, a) {
      StrLessTotal(a.studyId, b.studyId);
    }
    forall a: Ranking, b: Ranking, c: Ranking | StudyThenRank(a, b) && StudyThenRank(b, c)
      ensures StudyThenRank(a, c)
    {
      if StrLess(a.studyId, b.studyId) && StrLess(b.studyId, c.studyId) {
        StrLessTransitive(a.studyId, b.studyId, c.studyId);
      }
    }
  }

  /** The six sub-score columns hold each site's sub-scores. */
  lemma ColumnsHoldSubScores(sites: seq<Site>, i: int, e: seq<real>, q: seq<real>, sf: seq<real>, qr: seq<real>, d: seq<real>, a: seq<real>)
    requires 0 <= i < |sites|
    requires e == ScoreColumn(sites, EnrollmentRate) && q == ScoreColumn(sites, Quality)
    requires sf == ScoreColumn(sites, ScreenFail) && qr == ScoreColumn(sites, QueryRate)
    requires d == ScoreColumn(sites, Deviations) && a == ScoreColumn(sites, Activation)
    ensures SubScores(sites, i) == [e[i], q[i], sf[i], qr[i], d[i], a[i]]
  {
    var s := SubScores(sites, i);
    assert s[0] == e[i] && s[1] == q[i] && s[2] == sf[i];
    assert s[3] == qr[i] && s[4] == d[i] && s[5] == a[i];
  }

  /** `compute_site_rankings()`: the sub-score columns, then the composite,
      the rank within each study and the tier, one column after another;
      then the table ordered by study and rank. */
  method ComputeSiteRankings(sites: seq<Site>) returns (rankings: seq<Ranking>)
    ensures multiset(rankings) == multiset(RankedSites(sites))
    ensures SortedBy(rankings, StudyThenRank)
    ensures forall k :: 0 <= k < |rankings| ==> Consistent(rankings[k])
  {
    // Higher is better
    var enrollment := ScoreColumn(sites, EnrollmentRate);
    var quality := ScoreColumn(sites, Quality);
    // Lower is better (ScoreColumn inverts these)
    var screenFail := ScoreColumn(sites, ScreenFail);
    var query := ScoreColumn(sites, QueryRate);
    var deviation := ScoreColumn(sites, Deviations);
    var activation := ScoreColumn(sites, Activation);
    var subScores := seq(|sites|, i requires 0 <= i < |sites| =>
      [enrollment[i], quality[i], screenFail[i], query[i], deviation[i], activation[i]]);
    var composite := seq(|sites|, i requires 0 <= i < |sites| => WeightedSum(subScores[i], Weights()));
    var entries := seq(|sites|, i requires 0 <= i < |sites| => (sites[i].studyId, composite[i]));
    var rank := seq(|sites|, i requires 0 <= i < |sites| => CompetitionRank(entries, i));
    var table := seq(|sites|, i requires 0 <= i < |sites| => MakeRanking(sites[i], subScores[i], composite[i], rank[i]));
    forall i | 0 <= i < |sites| ensures subScores[i] == SubScores(sites, i) && composite[i] == Composite(sites, i) {
      ColumnsHoldSubScores(sites, i, enrollment, quality, screenFail, query, deviation, activation);
    }
    assert entries == Entries(sites);
    forall i | 0 <= i < |sites| ensures table[i] == RankedSite(sites, i) && Consistent(table[i]) {
      RankedSiteConsistent(sites, i);
    }
    assert table == RankedSites(sites);
    StudyThenRankPreorder();
    rankings := Sort(table, StudyThenRank);
    forall k | 0 <= k < |rankings| ensures Consistent(rankings[k]) {
      assert rankings[k] in multiset(table);
    }
  }
}
