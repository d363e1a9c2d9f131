/**
 * The advice drawn from a recent training-load analysis: the recommendation rules, the
 * suggested next workout and the assessment of the current form. Which branch is chosen is
 * modelled; the French texts are not.
 */
module Advice {
  import opened Wrappers
  import opened PyNum
  import opened CustomMetrics
  import opened LoadAnalysis

  /** The next-workout suggestions. */
  datatype Workout = IntensitySession | ActiveRecovery | BalancedSession

  /**
   * `suggest_next_workout`: more intensity when recovery rides outnumber twice the threshold
   * rides, otherwise active recovery after more than two rides above threshold, otherwise a
   * balanced session.
   */
  function SuggestNextWorkout(a: Analysis): (w: Workout)
    ensures w == IntensitySession <==> a.zonesCount.recovery > a.zonesCount.threshold * 2
    ensures w == ActiveRecovery <==>
      a.zonesCount.recovery <= a.zonesCount.threshold * 2 && a.zonesCount.thresholdPlus > 2
    ensures w == IntensitySession ==> a.zonesCount.recovery > 0
  {
    var zones := a.zonesCount;
    if zones.recovery > zones.threshold * 2 then IntensitySession
    else if zones.thresholdPlus > 2 then ActiveRecovery
    else BalancedSession
  }

  /**
   * When no analysed activity has a truthy intensity factor below 0.70, more intensity is
   * never suggested.
   */
  lemma NoEasyRidesNoIntensityPush(rows: seq<Row>, a: Analysis)
    requires a.zonesCount == ZoneHistogram(rows)
    requires forall i :: 0 <= i < |rows| && Truthy(rows[i].metrics.intensityFactor) ==>
      rows[i].metrics.intensityFactor.value >= 0.70
    ensures SuggestNextWorkout(a) != IntensitySession
  {
    ZoneHistogramOf(rows, Recovery);
    NoRecoveryRows(rows);
  }

  lemma {:induction false} NoRecoveryRows(rows: seq<Row>)
    requires forall i :: 0 <= i < |rows| && Truthy(rows[i].metrics.intensityFactor) ==>
      rows[i].metrics.intensityFactor.value >= 0.70
    ensures RowsInZone(rows, Recovery) == 0
    decreases |rows|
  {
    if rows != [] {
      var prefix := rows[..|rows| - 1];
      assert forall i :: 0 <= i < |prefix| ==> prefix[i] == rows[i];
      NoRecoveryRows(prefix);
    }
  }

  /** The form assessments, from weakest to strongest. */
  datatype Form = Underdeveloped | Moderate | Good | Excellent {
    function Rank(): nat {
      match this
      case Underdeveloped => 0
      case Moderate => 1
      case Good => 2
      case Excellent => 3
    }
  }

  /** `assess_current_form` from the rounded total TSS and average intensity factor. */
  function AssessCurrentForm(totalTss: real, avgIf: real): (f: Form)
    ensures f == Excellent <==> totalTss > 400.0 && avgIf > 0.80
    ensures f == Good <==> !(totalTss > 400.0 && avgIf > 0.80) && totalTss > 300.0 && avgIf > 0.75
    ensures f == Underdeveloped ==> totalTss < 200.0 || avgIf < 0.65
    ensures totalTss < 200.0 || avgIf < 0.65 ==> f == Underdeveloped
  {
    if totalTss > 400.0 && avgIf > 0.80 then Excellent
    else if totalTss > 300.0 && avgIf > 0.75 then Good
    else if totalTss < 200.0 || avgIf < 0.65 then Underdeveloped
    else Moderate
  }

  /** More load at no lower intensity, or more intensity at no lower load, never assesses a weaker form. */
  lemma FormMonotone(tss1: real, if1: real, tss2: real, if2: real)
    requires tss1 <= tss2 && if1 <= if2
    ensures AssessCurrentForm(tss1, if1).Rank() <= AssessCurrentForm(tss2, if2).Rank()
  {
  }

  /** One rule of `get_activity_recommendations`: each adds one recommendation and one focus area. */
  datatype Rule = MoreIntensity | MoreRecovery | MoreVolume | RecoveryWeek

  datatype Recommendations =
    | NoAnalysis
    | Recommendations(rules: seq<Rule>, nextWorkout: Workout, currentForm: Form)

  /**
   * `get_activity_recommendations` over the recent rows: without any, the single
   * synchronise-first advice; otherwise the intensity pair (below 0.70 / above 0.90) and the
   * volume pair (below 200 / above 500) of `if/elif` rules on the rounded analysis values,
   * the suggested workout and the form.
   */
  method GetActivityRecommendations(rows: seq<Row>, recentDays: int) returns (r: Recommendations)
    ensures r.NoAnalysis? <==> rows == []
    ensures r.Recommendations? ==>
      var avgIf := Round(AvgIf(rows), 3);
      var totalTss := Round(TotalTss(rows), 1);
      && (MoreIntensity in r.rules <==> avgIf < 0.70)
      && (MoreRecovery in r.rules <==> avgIf > 0.90)
      && (MoreVolume in r.rules <==> totalTss < 200.0)
      && (RecoveryWeek in r.rules <==> totalTss > 500.0)
      && |r.rules| <= 2
      && (|r.rules| == 2 ==> r.rules[0] in {MoreIntensity, MoreRecovery} && r.rules[1] in {MoreVolume, RecoveryWeek})
      && r.currentForm == AssessCurrentForm(totalTss, avgIf)
    ensures r.Recommendations? ==>
      var z := ZoneHistogram(rows);
      && (z.recovery > z.threshold * 2 ==> r.nextWorkout == IntensitySession)
      && (z.recovery <= z.threshold * 2 && z.thresholdPlus > 2 ==> r.nextWorkout == ActiveRecovery)
      && (z.recovery <= z.threshold * 2 && z.thresholdPlus <= 2 ==> r.nextWorkout == BalancedSession)
  {
    var analysis := GetTrainingLoadAnalysis(rows, recentDays);
    if analysis.None? {
      return NoAnalysis;
    }
    var a := analysis.value;
    var rules: seq<Rule> := [];
    var avgIf := a.avgIntensityFactor;
    var totalTss := a.totalTss;
    if avgIf < 0.70 {
      rules := rules + [MoreIntensity];
    } else if avgIf > 0.90 {
      rules := rules + [MoreRecovery];
    }
    if totalTss < 200.0 {
      rules := rules + [MoreVolume];
    } else if totalTss > 500.0 {
      rules := rules + [RecoveryWeek];
    }
    r := Recommendations(rules, SuggestNextWorkout(a), AssessCurrentForm(totalTss, avgIf));
  }

  /** An excellent form never comes with advice to raise intensity or volume. */
  lemma ExcellentFormNeedsNoIncrease(totalTss: real, avgIf: real)
    requires AssessCurrentForm(totalTss, avgIf) == Excellent
    ensures !(avgIf < 0.70) && !(totalTss < 200.0)
  {
  }
}
