/**
 * The vendor-native metrics stored per activity (table `activity_strava_metrics`) and the
 * classifiers computed from them: effort level, riding context, power and heart-rate summaries,
 * variability index, heart-rate reserve, cardiac efficiency, the quality-workout vote, the
 * quick zone estimates and the power-coverage percentage.
 */
module StravaMetrics {
  import opened Wrappers
  import opened PyNum
  import opened Thresholds

  /** One row of `activity_strava_metrics`; nullable numeric columns are `Option<real>`. */
  datatype ActivityStravaMetrics = ActivityStravaMetrics(
    activityId: int,
    averageWatts: Option<real>,
    weightedAverageWatts: Option<real>,  // the vendor's normalized power
    maxWatts: Option<real>,
    deviceWatts: bool,                   // a real power meter recorded the ride
    averageHeartrate: Option<real>,
    maxHeartrate: Option<real>,
    hasHeartrate: bool,
    sufferScore: Option<real>,
    trainer: bool,
    commute: bool)

  // ---- effort level ----

  datatype Effort = Unknown | Easy | Moderate | Hard | VeryHard {
    function Rank(): nat
      requires !Unknown?
    {
      match this
      case Easy => 0
      case Moderate => 1
      case Hard => 2
      case VeryHard => 3
    }
  }

  const EffortBounds: seq<real> := [50.0, 100.0, 150.0]

  /** Effort from the suffer score: unknown when it is falsy, else the band it falls in. */
  function EffortLevel(m: ActivityStravaMetrics): (e: Effort)
    ensures e == Unknown <==> !Truthy(m.sufferScore)
    ensures e != Unknown ==> e.Rank() == Level(m.sufferScore.value, EffortBounds)
  {
    if !Truthy(m.sufferScore) then Unknown
    else
      var score := m.sufferScore.value;
      LevelOfThree(score, EffortBounds);
      if score >= 150.0 then VeryHard
      else if score >= 100.0 then Hard
      else if score >= 50.0 then Moderate
      else Easy
  }

  /** A higher suffer score never gives a lower effort level. */
  lemma EffortMonotone(a: ActivityStravaMetrics, b: ActivityStravaMetrics)
    requires Truthy(a.sufferScore) && Truthy(b.sufferScore)
    requires a.sufferScore.value <= b.sufferScore.value
    ensures EffortLevel(a).Rank() <= EffortLevel(b).Rank()
  {
    LevelMonotone(a.sufferScore.value, b.sufferScore.value, EffortBounds);
  }

  // ---- activity context ----

  datatype Context = Indoor | Commute | Outdoor

  /** Home trainer wins over commute; neither flag means outdoor. */
  function ActivityContext(m: ActivityStravaMetrics): (c: Context)
    ensures c == Indoor <==> m.trainer
    ensures c == Commute <==> !m.trainer && m.commute
    ensures c == Outdoor <==> !m.trainer && !m.commute
  {
    if m.trainer then Indoor else if m.commute then Commute else Outdoor
  }

  // ---- variability index, heart-rate reserve, cardiac efficiency ----

  /** NP / average power to three decimals, when both are present and non-zero. */
  function VariabilityIndex(m: ActivityStravaMetrics): (vi: Option<real>)
    ensures vi.Some? <==> Truthy(m.weightedAverageWatts) && Truthy(m.averageWatts)
    ensures vi.Some? ==> vi.value == Round(m.weightedAverageWatts.value / m.averageWatts.value, 3)
  {
    if !Truthy(m.weightedAverageWatts) || !Truthy(m.averageWatts) then None
    else if m.averageWatts.value == 0.0 then None
    else Some(Round(m.weightedAverageWatts.value / m.averageWatts.value, 3))
  }

  /** A perfectly steady effort (NP equal to average power) has a variability index of exactly 1. */
  lemma SteadyEffortIndex(m: ActivityStravaMetrics)
    requires Truthy(m.averageWatts) && m.weightedAverageWatts == m.averageWatts
    ensures VariabilityIndex(m) == Some(1.0)
  {
    assert m.weightedAverageWatts.value / m.averageWatts.value == 1.0;
    assert Scale(3) == 1000.0;
    assert (1.0 * 1000.0 + 0.5).Floor == 1000;
  }

  /** A higher NP over the same average power never lowers the variability index. */
  lemma VariabilityMonotone(m: ActivityStravaMetrics, n: ActivityStravaMetrics)
    requires VariabilityIndex(m).Some? && VariabilityIndex(n).Some?
    requires m.averageWatts == n.averageWatts && m.averageWatts.value > 0.0
    requires m.weightedAverageWatts.value <= n.weightedAverageWatts.value
    ensures VariabilityIndex(m).value <= VariabilityIndex(n).value
  {
    DivMonotone(m.weightedAverageWatts.value, n.weightedAverageWatts.value, m.averageWatts.value);
    RoundMonotone(m.weightedAverageWatts.value / m.averageWatts.value,
                  n.weightedAverageWatts.value / n.averageWatts.value, 3);
  }

  const DefaultMaxHeartrate: int := 190
  const RestingHeartrate: int := 60

  /**
   * Share of the heart-rate reserve (max - 60) used by the average heart rate, as a percentage
   * to one decimal; absent without an average heart rate or when the reserve is not positive.
   */
  function HrReservePercentage(m: ActivityStravaMetrics, maxHrEstimate: int): (pct: Option<real>)
    ensures pct.Some? <==> Truthy(m.averageHeartrate) && maxHrEstimate > RestingHeartrate
    ensures pct.Some? ==> pct.value == Round((m.averageHeartrate.value - RestingHeartrate as real)
                                             / (maxHrEstimate - RestingHeartrate) as real * 100.0, 1)
  {
    if !Truthy(m.averageHeartrate) then None
    else
      var reserve := maxHrEstimate - RestingHeartrate;
      var used := m.averageHeartrate.value - RestingHeartrate as real;
      if reserve > 0 then Some(Round(used / reserve as real * 100.0, 1)) else None
  }

  /** An average heart rate between resting and maximum uses between 0 and 100 percent of the reserve. */
  lemma HrReserveWithin(m: ActivityStravaMetrics, maxHrEstimate: int)
    requires Truthy(m.averageHeartrate) && maxHrEstimate > RestingHeartrate
    requires RestingHeartrate as real <= m.averageHeartrate.value <= maxHrEstimate as real
    ensures 0.0 <= HrReservePercentage(m, maxHrEstimate).value <= 100.0
  {
    var reserve := (maxHrEstimate - RestingHeartrate) as real;
    var used := m.averageHeartrate.value - RestingHeartrate as real;
    RatioWithin(used, reserve);
    RoundPercentEnds();
    RoundWithin(used / reserve * 100.0, 0.0, 100.0, 1);
  }

  lemma RatioWithin(used: real, reserve: real)
    requires 0.0 <= used <= reserve && reserve > 0.0
    ensures 0.0 <= used / reserve * 100.0 <= 100.0
  {
    assert used / reserve <= 1.0;
  }

  /** NP per heartbeat to two decimals, when NP and the average heart rate are present and non-zero. */
  function CardiacEfficiency(m: ActivityStravaMetrics): (ce: Option<real>)
    ensures ce.Some? <==> Truthy(m.weightedAverageWatts) && Truthy(m.averageHeartrate)
    ensures ce.Some? ==> ce.value == Round(m.weightedAverageWatts.value / m.averageHeartrate.value, 2)
  {
    if !Truthy(m.weightedAverageWatts) || !Truthy(m.averageHeartrate) then None
    else if m.averageHeartrate.value == 0.0 then None
    else Some(Round(m.weightedAverageWatts.value / m.averageHeartrate.value, 2))
  }

  // ---- summaries ----

  datatype PowerQuality = Excellent | Estimated

  datatype PowerSummary = PowerSummary(
    isRealPowerMeter: bool,
    averageWatts: real,
    normalizedPower: Option<real>,
    maxWatts: Option<real>,
    variabilityIndex: Option<real>,
    powerQuality: PowerQuality)

  /** The power summary exists iff average power is truthy; its quality follows the power-meter flag. */
  function PowerMetricsSummary(m: ActivityStravaMetrics): (s: Option<PowerSummary>)
    ensures s.Some? <==> Truthy(m.averageWatts)
    ensures s.Some? ==>
      && s.value.averageWatts == m.averageWatts.value
      && s.value.isRealPowerMeter == m.deviceWatts
      && (s.value.powerQuality == Excellent <==> m.deviceWatts)
      && s.value.normalizedPower == Present(m.weightedAverageWatts)
      && s.value.maxWatts == Present(m.maxWatts)
      && s.value.variabilityIndex == VariabilityIndex(m)
  {
    if !Truthy(m.averageWatts) then None
    else Some(PowerSummary(
      m.deviceWatts, m.averageWatts.value, Present(m.weightedAverageWatts), Present(m.maxWatts),
      VariabilityIndex(m), if m.deviceWatts then Excellent else Estimated))
  }

  datatype HeartrateSummary = HeartrateSummary(
    averageHeartrate: real,
    maxHeartrate: Option<real>,
    hrReserveUsed: Option<real>,
    cardiacEfficiency: Option<real>)

  /** The heart-rate summary exists iff a sensor was present and the average is truthy. */
  function HeartrateMetricsSummary(m: ActivityStravaMetrics): (s: Option<HeartrateSummary>)
    ensures s.Some? <==> m.hasHeartrate && Truthy(m.averageHeartrate)
    ensures s.Some? ==>
      && s.value.averageHeartrate == m.averageHeartrate.value
      && s.value.maxHeartrate == Present(m.maxHeartrate)
      && s.value.hrReserveUsed == HrReservePercentage(m, DefaultMaxHeartrate)
      && s.value.cardiacEfficiency == CardiacEfficiency(m)
      && s.value.hrReserveUsed.Some?
  {
    if !m.hasHeartrate || !Truthy(m.averageHeartrate) then None
    else Some(HeartrateSummary(
      m.averageHeartrate.value, Present(m.maxHeartrate),
      HrReservePercentage(m, DefaultMaxHeartrate), CardiacEfficiency(m)))
  }

  // ---- quality workout ----

  predicate SustainedEffort(m: ActivityStravaMetrics) {
    Truthy(m.sufferScore) && m.sufferScore.value >= 80.0
  }

  predicate HighMeasuredPower(m: ActivityStravaMetrics) {
    m.deviceWatts && Truthy(m.weightedAverageWatts) && m.weightedAverageWatts.value >= 200.0
  }

  predicate HighHeartrate(m: ActivityStravaMetrics) {
    m.hasHeartrate && Truthy(m.averageHeartrate) && m.averageHeartrate.value >= 150.0
  }

  /** Counts the three quality indicators; a quality workout has at least two of them. */
  method IsQualityWorkout(m: ActivityStravaMetrics) returns (quality: bool)
    ensures quality <==>
      || (SustainedEffort(m) && HighMeasuredPower(m))
      || (SustainedEffort(m) && HighHeartrate(m))
      || (HighMeasuredPower(m) && HighHeartrate(m))
  {
    var indicators := 0;
    if Truthy(m.sufferScore) && m.sufferScore.value >= 80.0 {
      indicators := indicators + 1;
    }
    if m.deviceWatts && Truthy(m.weightedAverageWatts) && m.weightedAverageWatts.value >= 200.0 {
      indicators := indicators + 1;
    }
    if m.hasHeartrate && Truthy(m.averageHeartrate) && m.averageHeartrate.value >= 150.0 {
      indicators := indicators + 1;
    }
    quality := indicators >= 2;
  }

  // ---- quick zone estimates ----

  datatype PowerBand = Z1Recovery | Z2Endurance | Z3Tempo | Z4Threshold | Z5Vo2MaxPlus {
    function Rank(): nat {
      match this
      case Z1Recovery => 0
      case Z2Endurance => 1
      case Z3Tempo => 2
      case Z4Threshold => 3
      case Z5Vo2MaxPlus => 4
    }
  }

  datatype HrBand = H1Recovery | H2AerobicBase | H3Aerobic | H4Threshold | H5Anaerobic {
    function Rank(): nat {
      match this
      case H1Recovery => 0
      case H2AerobicBase => 1
      case H3Aerobic => 2
      case H4Threshold => 3
      case H5Anaerobic => 4
    }
  }

  const PowerBandBounds: seq<real> := [0.56, 0.76, 0.91, 1.05]
  const HrBandBounds: seq<real> := [0.70, 0.84, 0.94, 1.06]

  function PowerBandOf(intensity: real): (b: PowerBand)
    ensures b.Rank() == Level(intensity, PowerBandBounds)
  {
    LevelOfFour(intensity, PowerBandBounds);
    if intensity >= 1.05 then Z5Vo2MaxPlus
    else if intensity >= 0.91 then Z4Threshold
    else if intensity >= 0.76 then Z3Tempo
    else if intensity >= 0.56 then Z2Endurance
    else Z1Recovery
  }

  function HrBandOf(fraction: real): (b: HrBand)
    ensures b.Rank() == Level(fraction, HrBandBounds)
  {
    LevelOfFour(fraction, HrBandBounds);
    if fraction >= 1.06 then H5Anaerobic
    else if fraction >= 0.94 then H4Threshold
    else if fraction >= 0.84 then H3Aerobic
    else if fraction >= 0.70 then H2AerobicBase
    else H1Recovery
  }

  datatype PowerZoneEstimate = PowerZoneEstimate(primaryZone: PowerBand, intensityFactor: real, watts: real)
  datatype HrZoneEstimate = HrZoneEstimate(primaryZone: HrBand, hrPercentage: real, bpm: real)
  datatype ZonesEstimate = ZonesEstimate(powerZones: Option<PowerZoneEstimate>, hrZones: Option<HrZoneEstimate>)

  const DefaultFtp: real := 250.0
  const DefaultLthr: real := 180.0

  /**
   * Power band of NP / ftp and heart-rate band of average HR / lthr; each entry stays absent
   * when its input is falsy. A zero ftp (or lthr) with the matching input present divides by zero.
   */
  function TrainingZonesEstimate(m: ActivityStravaMetrics, ftp: real, lthr: real): (z: ZonesEstimate)
    requires Truthy(m.weightedAverageWatts) ==> ftp != 0.0
    requires Truthy(m.averageHeartrate) ==> lthr != 0.0
    ensures z.powerZones.Some? <==> Truthy(m.weightedAverageWatts)
    ensures z.hrZones.Some? <==> Truthy(m.averageHeartrate)
    ensures z.powerZones.Some? ==>
      var intensity := m.weightedAverageWatts.value / ftp;
      z.powerZones.value.primaryZone.Rank() == Level(intensity, PowerBandBounds)
      && z.powerZones.value.intensityFactor == Round(intensity, 3)
      && z.powerZones.value.watts == m.weightedAverageWatts.value
    ensures z.hrZones.Some? ==>
      var fraction := m.averageHeartrate.value / lthr;
      z.hrZones.value.primaryZone.Rank() == Level(fraction, HrBandBounds)
      && z.hrZones.value.hrPercentage == Round(fraction * 100.0, 1)
      && z.hrZones.value.bpm == m.averageHeartrate.value
  {
    var power :=
      if Truthy(m.weightedAverageWatts) then
        var intensity := m.weightedAverageWatts.value / ftp;
        Some(PowerZoneEstimate(PowerBandOf(intensity), Round(intensity, 3), m.weightedAverageWatts.value))
      else None;
    var hr :=
      if Truthy(m.averageHeartrate) then
        var fraction := m.averageHeartrate.value / lthr;
        Some(HrZoneEstimate(HrBandOf(fraction), Round(fraction * 100.0, 1), m.averageHeartrate.value))
      else None;
    ZonesEstimate(power, hr)
  }

  /** Both estimate ladders are ascending, so a ratio exactly on a bound is in the band above it. */
  lemma ZoneEstimateLaddersAscending()
    ensures Ascending(PowerBandBounds) && Ascending(HrBandBounds)
    ensures PowerBandOf(1.05) == Z5Vo2MaxPlus && PowerBandOf(0.56) == Z2Endurance
    ensures HrBandOf(1.06) == H5Anaerobic && HrBandOf(0.70) == H2AerobicBase
  {
  }

  // ---- coverage ----

  /**
   * `round(part / total * 100, 1) if total > 0 else 0`: the share of activities that carry a
   * metric, as a percentage to one decimal.
   */
  function CoveragePercentage(part: nat, total: nat): (pct: real)
    ensures total == 0 ==> pct == 0.0
    ensures part <= total ==> 0.0 <= pct <= 100.0
    ensures part == total && total > 0 ==> pct == 100.0
    ensures total > 0 ==>
      var exact := part as real / total as real * 100.0;
      exact - 0.05 < pct <= exact + 0.05
  {
    if total > 0 then
      if part <= total then PercentWithin(part, total); Percent(part, total)
      else Percent(part, total)
    else 0.0
  }

  /** The rounded percentage, with the whole reading as exactly 100. */
  function Percent(part: nat, total: nat): (pct: real)
    requires total > 0
    ensures part == total ==> pct == 100.0
    ensures var exact := part as real / total as real * 100.0; exact - 0.05 < pct <= exact + 0.05
  {
      RoundTenthClose(part as real / total as real * 100.0);
      if part == total then
        WholeIsHundred(total);
        RoundPercentEnds();
        Round(part as real / total as real * 100.0, 1)
      else
        Round(part as real / total as real * 100.0, 1)
  }

  lemma WholeIsHundred(total: nat)
    requires total > 0
    ensures total as real / total as real * 100.0 == 100.0
  {
    assert total as real / total as real == 1.0;
  }

  /** `power_coverage` of the athlete power summary: power activities over all activities. */
  function PowerCoverage(totalActivities: nat, powerActivities: nat): (pct: real)
    ensures totalActivities == 0 ==> pct == 0.0
    ensures powerActivities <= totalActivities ==> 0.0 <= pct <= 100.0
    ensures totalActivities > 0 ==>
      var exact := powerActivities as real / totalActivities as real * 100.0;
      exact - 0.05 < pct <= exact + 0.05
  {
    CoveragePercentage(powerActivities, totalActivities)
  }
}
