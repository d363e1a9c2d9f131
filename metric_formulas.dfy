/**
 * The per-activity formulas of the custom-calculation service: Training Stress Score,
 * Intensity Factor, the power-record estimate from normalized power and duration, and the
 * distance-record detection from distance and moving time.
 */
module MetricFormulas {
  import opened Wrappers
  import opened PyNum
  import opened Database
  import opened CustomMetrics

  /** The FTP assumed for an athlete without settings. */
  const DefaultFtp: int := 245

  // ---- TSS and IF ----

  /**
   * TSS = hours * NP * (NP / FTP) / FTP * 100, to one decimal; absent when NP, duration or FTP
   * is falsy, or FTP or duration is not positive.
   */
  function CustomTss(np: Option<real>, durationHours: Option<real>, ftp: Option<int>): (tss: Option<real>)
    ensures tss.Some? <==> Truthy(np) && durationHours.Some? && durationHours.value > 0.0 && ftp.Some? && ftp.value > 0
    ensures tss.Some? ==>
      tss.value == Round(durationHours.value * (np.value / ftp.value as real) * (np.value / ftp.value as real) * 100.0, 1)
  {
    if !Truthy(np) || !Truthy(durationHours) || !TruthyInt(ftp) then None
    else if ftp.value <= 0 || durationHours.value <= 0.0 then None
    else
      var f := ftp.value as real;
      var intensity := np.value / f;
      var raw := durationHours.value * np.value * intensity / f * 100.0;
      TssIsIfSquared(durationHours.value, np.value, f);
      assert raw == durationHours.value * (np.value / ftp.value as real) * (np.value / ftp.value as real) * 100.0;
      Some(Round(raw, 1))
  }

  /** The source's grouping of the formula equals hours times IF squared. */
  lemma TssIsIfSquared(hours: real, np: real, f: real)
    requires f > 0.0
    ensures hours * np * (np / f) / f * 100.0 == hours * (np / f) * (np / f) * 100.0
  {
    var x := np / f;
    assert np == x * f;
    assert hours * np * x / f == hours * x * (np / f);
  }

  /** One hour ridden exactly at FTP scores 100. */
  lemma HourAtFtpScores100(ftp: int)
    requires ftp > 0
    ensures CustomTss(Some(ftp as real), Some(1.0), Some(ftp)) == Some(100.0)
  {
    var f := ftp as real;
    assert f / f == 1.0;
    RoundPercentEnds();
  }

  /** Intensity factor NP / FTP to four decimals; absent when NP or FTP is falsy or FTP is not positive. */
  function IntensityFactor(np: Option<real>, ftp: Option<int>): (intensity: Option<real>)
    ensures intensity.Some? <==> Truthy(np) && ftp.Some? && ftp.value > 0
    ensures intensity.Some? ==> intensity.value == Round(np.value / ftp.value as real, 4)
  {
    if !Truthy(np) || !TruthyInt(ftp) || ftp.value <= 0 then None
    else Some(Round(np.value / ftp.value as real, 4))
  }

  /** For a positive duration, TSS is defined exactly when IF is. */
  lemma TssDefinedIffIf(np: Option<real>, hours: real, ftp: Option<int>)
    requires hours > 0.0
    ensures CustomTss(np, Some(hours), ftp).Some? <==> IntensityFactor(np, ftp).Some?
  {
  }

  /** Riding at exactly FTP gives an IF of 1. */
  lemma IfAtFtpIsOne(ftp: int)
    requires ftp > 0
    ensures IntensityFactor(Some(ftp as real), Some(ftp)) == Some(1.0)
  {
    var f := ftp as real;
    assert f / f == 1.0;
    assert Scale(4) == 10000.0;
    assert (1.0 * 10000.0 + 0.5).Floor == 10000;
  }

  // ---- power records ----

  predicate IsCycling(t: ActivityType) {
    t == Ride || t == VirtualRide || t == EBikeRide
  }

  /** `float(activity.moving_time_hours or 0) * 60`. */
  function DurationMinutes(a: ActivitySummary): real {
    OrZero(a.movingTimeHours) * 60.0
  }

  /** The estimate applies to cycling with NP in [50, 600] W and a positive duration. */
  predicate PowerEligible(a: ActivitySummary, m: Option<StravaMetrics.ActivityStravaMetrics>) {
    && IsCycling(a.activityType)
    && m.Some? && Truthy(m.value.weightedAverageWatts)
    && 50.0 <= m.value.weightedAverageWatts.value <= 600.0
    && DurationMinutes(a) > 0.0
  }

  /** The (1-min, 5-min, 20-min) multipliers of NP for a ride of the given length. */
  function TierFactors(minutes: real): (real, real, real) {
    if minutes >= 20.0 then (1.35, 1.15, 1.00)
    else if minutes >= 5.0 then (1.20, 1.00, 0.95)
    else (1.00, 0.95, 0.85)
  }

  /** A record kept only inside its plausibility window [100, hi]. */
  function Window(watts: int, hi: int): (w: Option<int>)
    ensures w.Some? <==> 100 <= watts <= hi
    ensures w.Some? ==> w.value == watts
  {
    if 100 <= watts <= hi then Some(watts) else None
  }

  /**
   * Best 1/5/20-minute powers estimated from NP by duration tier and truncated, each kept
   * only inside its window; all absent unless the activity is eligible.
   */
  function EstimatePowerRecords(a: ActivitySummary, m: Option<StravaMetrics.ActivityStravaMetrics>): (r: PowerRecords)
    ensures !PowerEligible(a, m) ==> r == NoPowerRecords
    ensures r.best1min.Some? ==> 100 <= r.best1min.value <= 800
    ensures r.best5min.Some? ==> 100 <= r.best5min.value <= 600
    ensures r.best20min.Some? ==> 100 <= r.best20min.value <= 500
    ensures PowerEligible(a, m) ==>
      var (e1, e5, e20) := TierEstimates(m.value.weightedAverageWatts.value, DurationMinutes(a));
      r == PowerRecords(Window(e1, 800), Window(e5, 600), Window(e20, 500))
  {
    if !IsCycling(a.activityType) then NoPowerRecords
    else if m.None? || !Truthy(m.value.weightedAverageWatts) then NoPowerRecords
    else
      var np := m.value.weightedAverageWatts.value;
      var minutes := OrZero(a.movingTimeHours) * 60.0;
      if np > 600.0 then NoPowerRecords
      else if np < 50.0 then NoPowerRecords
      else if minutes <= 0.0 then NoPowerRecords
      else
        var (best1, best5, best20) := TierEstimates(np, minutes);
        PowerRecords(Window(best1, 800), Window(best5, 600), Window(best20, 500))
  }

  /** The truncated (1-min, 5-min, 20-min) estimates of a ride's tier, before windowing. */
  function TierEstimates(np: real, minutes: real): (e: (int, int, int))
    ensures var (f1, f5, f20) := TierFactors(minutes);
      e == (Trunc(np * f1), Trunc(np * f5), Trunc(np * f20))
  {
    assert np * 1.00 == np;
    if minutes >= 20.0 then (Trunc(np * 1.35), Trunc(np * 1.15), Trunc(np))
    else if minutes >= 5.0 then (Trunc(np * 1.20), Trunc(np), Trunc(np * 0.95))
    else (Trunc(np), Trunc(np * 0.95), Trunc(np * 0.85))
  }

  /** Shorter efforts are estimated at least as high: 1-min >= 5-min >= 20-min before windowing. */
  lemma TierOrdered(np: real, minutes: real)
    requires np >= 0.0
    ensures var (f1, f5, f20) := TierFactors(minutes);
      Trunc(np * f1) >= Trunc(np * f5) >= Trunc(np * f20)
  {
    var (f1, f5, f20) := TierFactors(minutes);
    if minutes >= 20.0 {
      TruncMonotone(np * 1.15, np * 1.35);
      TruncMonotone(np * 1.00, np * 1.15);
    } else if minutes >= 5.0 {
      TruncMonotone(np * 1.00, np * 1.20);
      TruncMonotone(np * 0.95, np * 1.00);
    } else {
      TruncMonotone(np * 0.95, np * 1.00);
      TruncMonotone(np * 0.85, np * 0.95);
    }
  }

  /** Any two records that survive their windows keep that order. */
  lemma PowerRecordsOrdered(a: ActivitySummary, m: Option<StravaMetrics.ActivityStravaMetrics>)
    ensures var r := EstimatePowerRecords(a, m);
      && (r.best1min.Some? && r.best5min.Some? ==> r.best1min.value >= r.best5min.value)
      && (r.best5min.Some? && r.best20min.Some? ==> r.best5min.value >= r.best20min.value)
      && (r.best1min.Some? && r.best20min.Some? ==> r.best1min.value >= r.best20min.value)
  {
    if PowerEligible(a, m) {
      TierOrdered(m.value.weightedAverageWatts.value, DurationMinutes(a));
    }
  }

  /** 300 W of NP over 25 minutes estimates 405 / 345 / 300 W. */
  lemma PowerRecordsExample(a: ActivitySummary, m: StravaMetrics.ActivityStravaMetrics)
    requires a.activityType == Ride && a.movingTimeHours == Some(25.0 / 60.0)
    requires m.weightedAverageWatts == Some(300.0)
    ensures EstimatePowerRecords(a, Some(m)) == PowerRecords(Some(405), Some(345), Some(300))
  {
    assert DurationMinutes(a) == 25.0;
    assert Trunc(300.0 * 1.35) == 405;
    assert Trunc(300.0 * 1.15) == 345;
    assert Trunc(300.0 * 1.00) == 300;
  }

  // ---- distance records ----

  predicate IsFoot(t: ActivityType) {
    t == Run || t == Walk
  }

  /** Seconds per km; meaningful only for a positive distance. */
  function Pace(a: ActivitySummary): real
    requires a.distanceKm > 0.0
  {
    a.movingTimeSeconds as real / a.distanceKm
  }

  /** Detection applies to runs and walks with positive distance and time and a pace in [2:30, 12:00] per km. */
  predicate DistanceEligible(a: ActivitySummary) {
    && IsFoot(a.activityType)
    && a.distanceKm > 0.0 && a.movingTimeSeconds > 0
    && 150.0 <= Pace(a) <= 720.0
  }

  /** At most one of the five records is present. */
  predicate AtMostOneRecord(r: DistanceRecords) {
    var present := (if r.best1km.Some? then 1 else 0) + (if r.best5km.Some? then 1 else 0)
      + (if r.best10km.Some? then 1 else 0) + (if r.bestHalfMarathon.Some? then 1 else 0)
      + (if r.bestMarathon.Some? then 1 else 0);
    present <= 1
  }

  /** The time scaled to the canonical distance: `int(time * (canonical / distance))`. */
  function Normalised(a: ActivitySummary, canonicalKm: real): int
    requires a.distanceKm > 0.0
  {
    Trunc(a.movingTimeSeconds as real * (canonicalKm / a.distanceKm))
  }

  /**
   * The record of the one tolerance bucket the distance falls in (1 km: 0.8-1.2, 5 km: 4.5-5.5,
   * 10 km: 9.5-10.5, half: 20-22, marathon: 40-43), pace-normalised to the canonical distance.
   */
  function DetectDistanceRecords(a: ActivitySummary): (r: DistanceRecords)
    ensures AtMostOneRecord(r)
    ensures !DistanceEligible(a) ==> r == NoDistanceRecords
    ensures DistanceEligible(a) ==>
      var d := a.distanceKm;
      && (r.best1km.Some? <==> 0.8 <= d <= 1.2)
      && (r.best5km.Some? <==> 4.5 <= d <= 5.5)
      && (r.best10km.Some? <==> 9.5 <= d <= 10.5)
      && (r.bestHalfMarathon.Some? <==> 20.0 <= d <= 22.0)
      && (r.bestMarathon.Some? <==> 40.0 <= d <= 43.0)
    ensures r.best1km.Some? ==> a.distanceKm > 0.0 && r.best1km.value == Normalised(a, 1.0)
    ensures r.best5km.Some? ==> a.distanceKm > 0.0 && r.best5km.value == Normalised(a, 5.0)
    ensures r.best10km.Some? ==> a.distanceKm > 0.0 && r.best10km.value == Normalised(a, 10.0)
    ensures r.bestHalfMarathon.Some? ==> a.distanceKm > 0.0 && r.bestHalfMarathon.value == Normalised(a, 21.1)
    ensures r.bestMarathon.Some? ==> a.distanceKm > 0.0 && r.bestMarathon.value == Normalised(a, 42.2)
  {
    if !IsFoot(a.activityType) then NoDistanceRecords
    else
      var distance := a.distanceKm;
      var time := a.movingTimeSeconds;
      if distance <= 0.0 || time <= 0 then NoDistanceRecords
      else
        var pace := time as real / distance;
        if pace < 150.0 then NoDistanceRecords
        else if pace > 720.0 then NoDistanceRecords
        else BucketRecord(a)
  }

  /** The record of an eligible activity: the bucket its distance falls in, if any. */
  function BucketRecord(a: ActivitySummary): (r: DistanceRecords)
    requires DistanceEligible(a)
    ensures AtMostOneRecord(r)
    ensures var d := a.distanceKm;
      && (r.best1km.Some? <==> 0.8 <= d <= 1.2)
      && (r.best5km.Some? <==> 4.5 <= d <= 5.5)
      && (r.best10km.Some? <==> 9.5 <= d <= 10.5)
      && (r.bestHalfMarathon.Some? <==> 20.0 <= d <= 22.0)
      && (r.bestMarathon.Some? <==> 40.0 <= d <= 43.0)
    ensures r.best1km.Some? ==> r.best1km.value == Normalised(a, 1.0)
    ensures r.best5km.Some? ==> r.best5km.value == Normalised(a, 5.0)
    ensures r.best10km.Some? ==> r.best10km.value == Normalised(a, 10.0)
    ensures r.bestHalfMarathon.Some? ==> r.bestHalfMarathon.value == Normalised(a, 21.1)
    ensures r.bestMarathon.Some? ==> r.bestMarathon.value == Normalised(a, 42.2)
  {
    var distance := a.distanceKm;
    if 0.8 <= distance <= 1.2 then NoDistanceRecords.(best1km := Some(Normalised(a, 1.0)))
    else if 4.5 <= distance <= 5.5 then NoDistanceRecords.(best5km := Some(Normalised(a, 5.0)))
    else if 9.5 <= distance <= 10.5 then NoDistanceRecords.(best10km := Some(Normalised(a, 10.0)))
    else if 20.0 <= distance <= 22.0 then NoDistanceRecords.(bestHalfMarathon := Some(Normalised(a, 21.1)))
    else if 40.0 <= distance <= 43.0 then NoDistanceRecords.(bestMarathon := Some(Normalised(a, 42.2)))
    else NoDistanceRecords
  }

  /** The normalised time is the pace times the canonical distance, so it lies within the pace band. */
  lemma NormalisedWithinPaceBand(a: ActivitySummary, canonicalKm: real)
    requires DistanceEligible(a) && canonicalKm > 0.0
    ensures Trunc(150.0 * canonicalKm) <= Normalised(a, canonicalKm) <= Trunc(720.0 * canonicalKm)
  {
    PaceBandScaled(a.movingTimeSeconds as real, a.distanceKm, canonicalKm);
  }

  /** A time whose pace lies in [150, 720] s/km, scaled to `c` km, lies in [150 c, 720 c] before truncation. */
  lemma PaceBandScaled(time: real, distance: real, c: real)
    requires distance > 0.0 && c > 0.0 && 150.0 <= time / distance <= 720.0
    ensures Trunc(150.0 * c) <= Trunc(time * (c / distance)) <= Trunc(720.0 * c)
  {
    var pace := time / distance;
    var t := time * (c / distance);
    assert t == pace * c by { ScaledPace(time, distance, c); }
    assert 150.0 * c <= t by { MulLe(150.0, pace, c); }
    assert t <= 720.0 * c by { MulLe(pace, 720.0, c); }
    TruncMonotone(150.0 * c, t);
    TruncMonotone(t, 720.0 * c);
  }

  lemma ScaledPace(time: real, distance: real, canonicalKm: real)
    requires distance > 0.0
    ensures time * (canonicalKm / distance) == (time / distance) * canonicalKm
  {
  }

  /** 10.1 km in 2460 s is a 10 km record of 2435 s (truncated, not rounded). */
  lemma DistanceRecordsExample(a: ActivitySummary)
    requires a.activityType == Run && a.distanceKm == 10.1 && a.movingTimeSeconds == 2460
    ensures DetectDistanceRecords(a) == NoDistanceRecords.(best10km := Some(2435))
  {
    assert 2460.0 / 10.1 >= 150.0;
    assert Trunc(2460.0 * (10.0 / 10.1)) == 2435;
  }

  /** 5 km in 10 minutes is faster than 2:30 per km and is rejected. */
  lemma ImplausiblePaceRejected(a: ActivitySummary)
    requires a.activityType == Run && a.distanceKm == 5.0 && a.movingTimeSeconds == 600
    ensures DetectDistanceRecords(a) == NoDistanceRecords
  {
    assert 600.0 / 5.0 == 120.0;
  }
}
