/**
 * The comparison of the custom TSS with the vendor's suffer score over the athlete's most
 * recent activities that have both: one line per activity and the averages over them.
 */
module TssComparison {
  import opened Wrappers
  import opened PyNum
  import opened Database
  import opened CustomMetrics
  import StravaMetrics

  /** One row of the join of an activity with its vendor metrics and its custom metrics. */
  datatype Joined = Joined(
    activity: ActivitySummary, strava: StravaMetrics.ActivityStravaMetrics, custom: ActivityCustomMetrics)

  /** The query's filters: a suffer score and a custom TSS, possibly zero, are both present. */
  predicate BothScores(r: Joined) {
    r.strava.sufferScore.Some? && r.custom.customTss.Some?
  }

  function BothScored(rows: seq<Joined>): (s: seq<Joined>)
    ensures |s| <= |rows|
    ensures forall r :: r in s ==> BothScores(r)
    ensures forall i :: 0 <= i < |rows| && BothScores(rows[i]) ==> rows[i] in s
  {
    if rows == [] then []
    else (if BothScores(rows[0]) then [rows[0]] else []) + BothScored(rows[1..])
  }

  /** The compared rows: those with both scores, newest first as given, at most `limit` of them. */
  function Selected(rows: seq<Joined>, limit: nat): (s: seq<Joined>)
    ensures |s| <= limit
    ensures forall r :: r in s ==> BothScores(r)
  {
    var both := BothScored(rows);
    if |both| <= limit then both else both[..limit]
  }

  function StravaOf(r: Joined): real {
    r.strava.sufferScore.GetOr(0.0)
  }

  function CustomOf(r: Joined): real {
    r.custom.customTss.GetOr(0.0)
  }

  function SumStrava(s: seq<Joined>): real {
    if s == [] then 0.0 else SumStrava(s[..|s| - 1]) + StravaOf(s[|s| - 1])
  }

  function SumCustom(s: seq<Joined>): real {
    if s == [] then 0.0 else SumCustom(s[..|s| - 1]) + CustomOf(s[|s| - 1])
  }

  /** The sum of the per-activity differences `custom - strava`. */
  function SumDifference(s: seq<Joined>): real {
    if s == [] then 0.0 else SumDifference(s[..|s| - 1]) + (CustomOf(s[|s| - 1]) - StravaOf(s[|s| - 1]))
  }

  /** The per-activity differences add up to the difference of the totals. */
  lemma {:induction false} SumOfDifferences(s: seq<Joined>)
    ensures SumDifference(s) == SumCustom(s) - SumStrava(s)
    decreases |s|
  {
    if s != [] {
      SumOfDifferences(s[..|s| - 1]);
    }
  }

  /** The average difference is the mean of the per-activity differences. */
  lemma MeanOfDifferences(s: seq<Joined>)
    requires s != []
    ensures SumCustom(s) / |s| as real - SumStrava(s) / |s| as real == SumDifference(s) / |s| as real
  {
    SumOfDifferences(s);
    DivSub(SumCustom(s), SumStrava(s), |s| as real);
  }

  lemma DivSub(a: real, b: real, n: real)
    requires n != 0.0
    ensures a / n - b / n == (a - b) / n
  {
  }

  datatype RowComparison = RowComparison(
    activityName: string,
    date: LocalDateTime,
    activityType: ActivityType,
    stravaTss: real,
    customTss: real,
    difference: real,
    percentageDiff: real,
    normalizedPower: Option<real>,
    intensityFactor: Option<real>)

  /** One compared activity: both scores, their difference and the difference relative to the vendor's score. */
  function RowComparisonOf(r: Joined): (c: RowComparison)
    requires StravaOf(r) != 0.0
    ensures c.difference == Round(CustomOf(r) - StravaOf(r), 1)
    ensures c.percentageDiff == Round((CustomOf(r) - StravaOf(r)) / StravaOf(r) * 100.0, 1)
    ensures c.normalizedPower.Some? <==> Truthy(r.strava.weightedAverageWatts)
    ensures c.intensityFactor.Some? <==> Truthy(r.custom.intensityFactor)
  {
    var strava := StravaOf(r);
    var custom := CustomOf(r);
    var difference := custom - strava;
    RowComparison(
      r.activity.name, r.activity.startDateLocal, r.activity.activityType,
      Round(strava, 1), Round(custom, 1), Round(difference, 1), Round(difference / strava * 100.0, 1),
      Present(r.strava.weightedAverageWatts), Present(r.custom.intensityFactor))
  }

  datatype Summary = Summary(
    activitiesCompared: nat,
    avgStravaTss: real,
    avgCustomTss: real,
    avgDifference: real,
    avgPercentageDiff: real,
    userFtp: int)

  /** No comparable activity, a division by a zero vendor score, or the report. */
  datatype Outcome =
    | NoComparisons
    | DivisionByZero
    | Report(summary: Summary, comparisons: seq<RowComparison>)

  predicate HasZeroScore(s: seq<Joined>) {
    exists i :: 0 <= i < |s| && StravaOf(s[i]) == 0.0
  }

  /**
   * `compare_with_strava_metrics` after its query. A zero suffer score passes the query's
   * filters and makes the per-activity percentage divide by zero, as does a zero total for the
   * average percentage. The reported FTP is that of the last compared record.
   */
  method CompareWithStravaMetrics(rows: seq<Joined>, limit: nat) returns (o: Outcome)
    ensures var s := Selected(rows, limit);
      o.NoComparisons? <==> s == []
    ensures var s := Selected(rows, limit);
      o.DivisionByZero? <==> s != [] && (HasZeroScore(s) || SumStrava(s) == 0.0)
    ensures o.Report? ==>
      var s := Selected(rows, limit);
      var n := |s| as real;
      && |o.comparisons| == |s|
      && (forall i :: 0 <= i < |s| ==> StravaOf(s[i]) != 0.0 && o.comparisons[i] == RowComparisonOf(s[i]))
      && o.summary.activitiesCompared == |s|
      && o.summary.avgStravaTss == Round(SumStrava(s) / n, 1)
      && o.summary.avgCustomTss == Round(SumCustom(s) / n, 1)
      && o.summary.avgDifference == Round(SumDifference(s) / n, 1)
      && o.summary.avgPercentageDiff == Round(SumDifference(s) / SumStrava(s) * 100.0, 1)
      && o.summary.userFtp == s[|s| - 1].custom.userFtp
  {
    var s := Selected(rows, limit);
    if s == [] {
      return NoComparisons;
    }
    var results, totalStrava, totalCustom := CompareEach(s);
    if results.None? {
      return DivisionByZero;
    }
    var n := |s| as real;
    var avgStrava := totalStrava / n;
    var avgCustom := totalCustom / n;
    var avgDifference := avgCustom - avgStrava;
    if avgStrava == 0.0 {
      return DivisionByZero;
    }
    MeanOfDifferences(s);
    assert avgDifference / avgStrava == SumDifference(s) / SumStrava(s) by {
      RatioOfMeans(SumDifference(s), SumStrava(s), n);
    }
    var summary := Summary(
      |s|, Round(avgStrava, 1), Round(avgCustom, 1), Round(avgDifference, 1),
      Round(avgDifference / avgStrava * 100.0, 1), s[|s| - 1].custom.userFtp);
    o := Report(summary, results.value);
  }

  /** The comparison loop: the per-activity lines and the running totals, or nothing once a vendor score is zero. */
  method CompareEach(s: seq<Joined>) returns (results: Option<seq<RowComparison>>, totalStrava: real, totalCustom: real)
    ensures results.None? <==> HasZeroScore(s)
    ensures results.Some? ==>
      && |results.value| == |s|
      && (forall i :: 0 <= i < |s| ==> StravaOf(s[i]) != 0.0 && results.value[i] == RowComparisonOf(s[i]))
      && totalStrava == SumStrava(s) && totalCustom == SumCustom(s)
  {
    var lines: seq<RowComparison> := [];
    totalStrava := 0.0;
    totalCustom := 0.0;
    for i := 0 to |s|
      invariant totalStrava == SumStrava(s[..i]) && totalCustom == SumCustom(s[..i])
      invariant |lines| == i
      invariant forall m :: 0 <= m < i ==> StravaOf(s[m]) != 0.0 && lines[m] == RowComparisonOf(s[m])
    {
      assert s[..i + 1][..i] == s[..i];
      var strava := StravaOf(s[i]);
      var custom := CustomOf(s[i]);
      totalStrava := totalStrava + strava;
      totalCustom := totalCustom + custom;
      if strava == 0.0 {
        return None, totalStrava, totalCustom;
      }
      lines := lines + [RowComparisonOf(s[i])];
    }
    assert s[..|s|] == s;
    results := Some(lines);
  }

  lemma RatioOfMeans(a: real, b: real, n: real)
    requires n > 0.0 && b / n != 0.0
    ensures (a / n) / (b / n) == a / b
  {
    assert b != 0.0;
  }
}
