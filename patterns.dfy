/**
 * The training-pattern analysis: activity counts and TSS / IF totals per day name and per
 * activity type, the weekly activity rate, and the consistency score computed from the
 * variance of the number of activities per Sunday-based week.
 */
module TrainingPatterns {
  import opened Wrappers
  import opened PyNum
  import opened Database
  import opened AssocList
  import opened LoadAnalysis

  // ---- consistency score ----

  /** The `weekly_counts` dict: activities per `'%Y-W%U'` week, in order of first appearance. */
  function WeekCounts(rows: seq<Row>): seq<(WeekKey, nat)> {
    if rows == [] then []
    else
      var w := WeekCounts(rows[..|rows| - 1]);
      var k := WeekKeyOf(rows[|rows| - 1].activity.startDateLocal);
      Put(w, k, Get(w, k, 0) + 1)
  }

  function CountValue(c: nat): real {
    c as real
  }

  /** `sum((x - mean) ** 2 for x in weekly_values)`. */
  function SquaredDeviations(l: seq<(WeekKey, nat)>, mean: real): (d: real)
    ensures d >= 0.0
  {
    if l == [] then 0.0
    else
      var dev := l[0].1 as real - mean;
      dev * dev + SquaredDeviations(l[1..], mean)
  }

  function MaxReal(a: real, b: real): real {
    if a >= b then a else b
  }

  function MinReal(a: real, b: real): real {
    if a <= b then a else b
  }

  /**
   * The score of a set of weekly counts: 50 with fewer than two weeks, otherwise 100 less ten
   * times the population variance of the counts, kept in [0, 100] and rounded to one decimal.
   */
  function ScoreOfCounts(counts: seq<(WeekKey, nat)>): (score: real)
    ensures 0.0 <= score <= 100.0
  {
    if |counts| < 2 then 50.0
    else
      var n := |counts| as real;
      var mean := SumOf(counts, CountValue) / n;
      var variance := SquaredDeviations(counts, mean) / n;
      var bounded := MinReal(MaxReal(0.0, 100.0 - variance * 10.0), 100.0);
      RoundPercentEnds();
      RoundWithin(bounded, 0.0, 100.0, 1);
      Round(bounded, 1)
  }

  /** The consistency score: 0 without activities, otherwise the score of the weekly counts. */
  function ConsistencyOf(rows: seq<Row>): real {
    if rows == [] then 0.0 else ScoreOfCounts(WeekCounts(rows))
  }

  /** `calculate_consistency_score`, building the weekly counts in a loop. */
  method ConsistencyScore(rows: seq<Row>) returns (score: real)
    ensures score == ConsistencyOf(rows)
    ensures 0.0 <= score <= 100.0
  {
    if rows == [] {
      return 0.0;
    }
    var weeklyCounts: seq<(WeekKey, nat)> := [];
    for i := 0 to |rows|
      invariant weeklyCounts == WeekCounts(rows[..i])
    {
      assert rows[..i + 1][..i] == rows[..i];
      var key := WeekKeyOf(rows[i].activity.startDateLocal);
      weeklyCounts := Put(weeklyCounts, key, Get(weeklyCounts, key, 0) + 1);
    }
    assert rows[..|rows|] == rows;
    if |weeklyCounts| < 2 {
      return 50.0;
    }
    var n := |weeklyCounts| as real;
    var mean := SumOf(weeklyCounts, CountValue) / n;
    var variance := SquaredDeviations(weeklyCounts, mean) / n;
    var consistency := MaxReal(0.0, 100.0 - variance * 10.0);
    score := Round(MinReal(consistency, 100.0), 1);
  }

  lemma {:induction false} WeekCountsDistinct(rows: seq<Row>)
    ensures DistinctKeys(WeekCounts(rows))
    decreases |rows|
  {
    if rows != [] {
      WeekCountsDistinct(rows[..|rows| - 1]);
      var w := WeekCounts(rows[..|rows| - 1]);
      var k := WeekKeyOf(rows[|rows| - 1].activity.startDateLocal);
      PutDistinct(w, k, Get(w, k, 0) + 1);
    }
  }

  /** Every activity is counted in exactly one week. */
  lemma {:induction false} WeekCountsTotal(rows: seq<Row>)
    ensures SumOf(WeekCounts(rows), CountValue) == |rows| as real
    decreases |rows|
  {
    if rows != [] {
      WeekCountsTotal(rows[..|rows| - 1]);
      var w := WeekCounts(rows[..|rows| - 1]);
      var k := WeekKeyOf(rows[|rows| - 1].activity.startDateLocal);
      SumOfPut(w, k, Get(w, k, 0) + 1, CountValue);
    }
  }

  /** Activities that all fall in one week give a single weekly count. */
  lemma {:induction false} OneWeekOneCount(rows: seq<Row>, k: WeekKey)
    requires rows != []
    requires forall i :: 0 <= i < |rows| ==> WeekKeyOf(rows[i].activity.startDateLocal) == k
    ensures |WeekCounts(rows)| == 1 && WeekCounts(rows)[0].0 == k
    decreases |rows|
  {
    var prefix := rows[..|rows| - 1];
    if prefix != [] {
      assert forall i :: 0 <= i < |prefix| ==> prefix[i] == rows[i];
      OneWeekOneCount(prefix, k);
    }
  }

  /** Activities all in the same week score exactly 50. */
  lemma OneWeekScores50(rows: seq<Row>, k: WeekKey)
    requires rows != []
    requires forall i :: 0 <= i < |rows| ==> WeekKeyOf(rows[i].activity.startDateLocal) == k
    ensures ConsistencyOf(rows) == 50.0
  {
    OneWeekOneCount(rows, k);
  }

  /** Squared deviations from the common value of equal counts vanish. */
  lemma {:induction false} NoDeviation(l: seq<(WeekKey, nat)>, c: nat)
    requires forall i :: 0 <= i < |l| ==> l[i].1 == c
    ensures SquaredDeviations(l, c as real) == 0.0
    decreases |l|
  {
    if l != [] {
      NoDeviation(l[1..], c);
    }
  }

  /** Two or more weekly counts that are all equal score the maximum, 100. */
  lemma EvenCountsScore100(counts: seq<(WeekKey, nat)>)
    requires |counts| >= 2
    requires forall i :: 0 <= i < |counts| ==> counts[i].1 == counts[0].1
    ensures ScoreOfCounts(counts) == 100.0
  {
    var c := counts[0].1;
    var n := |counts| as real;
    SumOfConstant(counts, CountValue, c as real);
    MeanOfConstant(n, c as real);
    var mean := SumOf(counts, CountValue) / n;
    assert mean == c as real;
    NoDeviation(counts, c);
    var variance := SquaredDeviations(counts, mean) / n;
    assert variance == 0.0;
    assert MinReal(MaxReal(0.0, 100.0 - variance * 10.0), 100.0) == 100.0;
    RoundPercentEnds();
  }

  lemma MeanOfConstant(n: real, c: real)
    requires n > 0.0
    ensures (n * c) / n == c
  {
  }

  /** Two or more weeks with the same number of activities score the maximum, 100. */
  lemma EvenWeeksScore100(rows: seq<Row>)
    requires |WeekCounts(rows)| >= 2
    requires forall i :: 0 <= i < |WeekCounts(rows)| ==> WeekCounts(rows)[i].1 == WeekCounts(rows)[0].1
    ensures ConsistencyOf(rows) == 100.0
  {
    EvenCountsScore100(WeekCounts(rows));
  }

  // ---- day and type patterns ----

  datatype DayTotals = DayTotals(count: nat, totalTss: real, totalIf: real)
  datatype DayPattern = DayPattern(count: nat, totalTss: real, totalIf: real, avgTss: real, avgIf: real)
  datatype TypeTotals = TypeTotals(count: nat, totalTss: real, totalDistance: real)

  const NoDay := DayTotals(0, 0.0, 0.0)
  const NoType := TypeTotals(0, 0.0, 0.0)

  /** One activity added to its day's totals: counted, with its truthy TSS and IF. */
  function AddToDay(t: DayTotals, r: Row): DayTotals {
    var tss := r.metrics.customTss;
    var intensity := r.metrics.intensityFactor;
    DayTotals(
      t.count + 1,
      t.totalTss + (if Truthy(tss) then tss.value else 0.0),
      t.totalIf + (if Truthy(intensity) then intensity.value else 0.0))
  }

  /** One activity added to its type's totals: counted, with its truthy TSS and distance. */
  function AddToType(t: TypeTotals, r: Row): TypeTotals {
    var tss := r.metrics.customTss;
    TypeTotals(
      t.count + 1,
      t.totalTss + (if Truthy(tss) then tss.value else 0.0),
      t.totalDistance + (if r.activity.distanceKm != 0.0 then r.activity.distanceKm else 0.0))
  }

  /** The `day_patterns` dict, keyed by the stored day name. */
  function DayTotalsOf(rows: seq<Row>): seq<(string, DayTotals)> {
    if rows == [] then []
    else
      var d := DayTotalsOf(rows[..|rows| - 1]);
      var r := rows[|rows| - 1];
      Put(d, r.activity.dayName, AddToDay(Get(d, r.activity.dayName, NoDay), r))
  }

  /** The `type_patterns` dict, keyed by the activity type. */
  function TypeTotalsOf(rows: seq<Row>): seq<(ActivityType, TypeTotals)> {
    if rows == [] then []
    else
      var t := TypeTotalsOf(rows[..|rows| - 1]);
      var r := rows[|rows| - 1];
      Put(t, r.activity.activityType, AddToType(Get(t, r.activity.activityType, NoType), r))
  }

  /** A day's averages: TSS to one decimal and IF to three, per activity of that day. */
  function WithAverages(t: DayTotals): (p: DayPattern)
    ensures p.count == t.count && p.totalTss == t.totalTss && p.totalIf == t.totalIf
    ensures t.count > 0 ==>
      p.avgTss == Round(t.totalTss / t.count as real, 1) && p.avgIf == Round(t.totalIf / t.count as real, 3)
  {
    var avgTss := if t.count > 0 then Round(t.totalTss / t.count as real, 1) else 0.0;
    var avgIf := if t.count > 0 then Round(t.totalIf / t.count as real, 3) else 0.0;
    DayPattern(t.count, t.totalTss, t.totalIf, avgTss, avgIf)
  }

  function DayCount(t: DayTotals): real {
    t.count as real
  }

  function TypeCount(t: TypeTotals): real {
    t.count as real
  }

  /** The number of rows whose stored day name is `day`. */
  function RowsOnDay(rows: seq<Row>, day: string): nat {
    if rows == [] then 0
    else RowsOnDay(rows[..|rows| - 1], day) + if rows[|rows| - 1].activity.dayName == day then 1 else 0
  }

  /** The day buckets count every activity once, keys are distinct and every bucket is non-empty. */
  lemma {:induction false} DayTotalsShape(rows: seq<Row>)
    ensures DistinctKeys(DayTotalsOf(rows))
    ensures SumOf(DayTotalsOf(rows), DayCount) == |rows| as real
    ensures forall i :: 0 <= i < |DayTotalsOf(rows)| ==> DayTotalsOf(rows)[i].1.count >= 1
    decreases |rows|
  {
    if rows != [] {
      DayTotalsShape(rows[..|rows| - 1]);
      var d := DayTotalsOf(rows[..|rows| - 1]);
      var r := rows[|rows| - 1];
      var v := AddToDay(Get(d, r.activity.dayName, NoDay), r);
      PutDistinct(d, r.activity.dayName, v);
      SumOfPut(d, r.activity.dayName, v, DayCount);
      PutItems(d, r.activity.dayName, v);
    }
  }

  /** Each day's bucket counts exactly the activities of that day. */
  lemma {:induction false} DayCountLookup(rows: seq<Row>, day: string)
    ensures Get(DayTotalsOf(rows), day, NoDay).count == RowsOnDay(rows, day)
    decreases |rows|
  {
    if rows != [] {
      DayCountLookup(rows[..|rows| - 1], day);
      var d := DayTotalsOf(rows[..|rows| - 1]);
      var r := rows[|rows| - 1];
      var v := AddToDay(Get(d, r.activity.dayName, NoDay), r);
      PutGet(d, r.activity.dayName, v, day, NoDay);
      if r.activity.dayName == day {
        DayCountLookup(rows[..|rows| - 1], r.activity.dayName);
      }
    }
  }

  /** The type buckets count every activity once and keys are distinct. */
  lemma {:induction false} TypeTotalsShape(rows: seq<Row>)
    ensures DistinctKeys(TypeTotalsOf(rows))
    ensures SumOf(TypeTotalsOf(rows), TypeCount) == |rows| as real
    decreases |rows|
  {
    if rows != [] {
      TypeTotalsShape(rows[..|rows| - 1]);
      var t := TypeTotalsOf(rows[..|rows| - 1]);
      var r := rows[|rows| - 1];
      var v := AddToType(Get(t, r.activity.activityType, NoType), r);
      PutDistinct(t, r.activity.activityType, v);
      SumOfPut(t, r.activity.activityType, v, TypeCount);
    }
  }

  datatype Patterns = Patterns(
    periodDays: int,
    totalActivities: nat,
    dayOfWeekPatterns: seq<(string, DayPattern)>,
    activityTypePatterns: seq<(ActivityType, TypeTotals)>,
    weeklyAvgActivities: real,
    consistencyScore: real)

  /** Nothing to analyse, a zero-day period (whose weekly average divides by zero), or the analysis. */
  datatype PatternsOutcome = NoActivities | ZeroPeriod | Analysed(patterns: Patterns)

  /**
   * `analyze_training_patterns` over the athlete's rows since the cutoff: nothing without
   * rows; otherwise the per-day and per-type buckets, the activities per 7 days of the
   * period and the consistency score.
   */
  method AnalyzeTrainingPatterns(rows: seq<Row>, days: int) returns (p: PatternsOutcome)
    ensures p.NoActivities? <==> rows == []
    ensures p.ZeroPeriod? <==> rows != [] && days == 0
    ensures p.Analysed? ==>
      var a := p.patterns;
      && days != 0
      && a.periodDays == days && a.totalActivities == |rows|
      && |a.dayOfWeekPatterns| == |DayTotalsOf(rows)|
      && (forall i :: 0 <= i < |DayTotalsOf(rows)| ==>
            a.dayOfWeekPatterns[i] == (DayTotalsOf(rows)[i].0, WithAverages(DayTotalsOf(rows)[i].1)))
      && a.activityTypePatterns == TypeTotalsOf(rows)
      && a.weeklyAvgActivities == Round(|rows| as real / (days as real / 7.0), 1)
      && a.consistencyScore == ConsistencyOf(rows)
  {
    if rows == [] {
      return NoActivities;
    }
    if days == 0 {
      return ZeroPeriod;
    }
    var dayTotals: seq<(string, DayTotals)> := [];
    for i := 0 to |rows|
      invariant dayTotals == DayTotalsOf(rows[..i])
    {
      assert rows[..i + 1][..i] == rows[..i];
      var name := rows[i].activity.dayName;
      dayTotals := Put(dayTotals, name, AddToDay(Get(dayTotals, name, NoDay), rows[i]));
    }
    assert rows[..|rows|] == rows;

    var dayPatterns: seq<(string, DayPattern)> := [];
    for j := 0 to |dayTotals|
      invariant |dayPatterns| == j
      invariant forall m :: 0 <= m < j ==> dayPatterns[m] == (dayTotals[m].0, WithAverages(dayTotals[m].1))
    {
      dayPatterns := dayPatterns + [(dayTotals[j].0, WithAverages(dayTotals[j].1))];
    }

    var typeTotals: seq<(ActivityType, TypeTotals)> := [];
    for i := 0 to |rows|
      invariant typeTotals == TypeTotalsOf(rows[..i])
    {
      assert rows[..i + 1][..i] == rows[..i];
      var t := rows[i].activity.activityType;
      typeTotals := Put(typeTotals, t, AddToType(Get(typeTotals, t, NoType), rows[i]));
    }

    var consistency := ConsistencyScore(rows);
    p := Analysed(Patterns(
      days, |rows|, dayPatterns, typeTotals, Round(|rows| as real / (days as real / 7.0), 1), consistency));
  }
}
