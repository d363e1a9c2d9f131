/**
 * The per-activity custom metrics record (table `activity_custom_metrics`) and the athlete's
 * settings (table `athlete_settings`), with the classifiers and summaries computed from them.
 */
module CustomMetrics {
  import opened Wrappers
  import opened PyNum
  import opened Thresholds

  // ---- the stored record ----

  /** Estimated best efforts over 1, 5 and 20 minutes, in whole watts. */
  datatype PowerRecords = PowerRecords(best1min: Option<int>, best5min: Option<int>, best20min: Option<int>)

  /** Pace-normalised times, in whole seconds, for the five standard distances. */
  datatype DistanceRecords = DistanceRecords(
    best1km: Option<int>, best5km: Option<int>, best10km: Option<int>,
    bestHalfMarathon: Option<int>, bestMarathon: Option<int>)

  const NoPowerRecords := PowerRecords(None, None, None)
  const NoDistanceRecords := DistanceRecords(None, None, None, None, None)

  datatype ActivityCustomMetrics = ActivityCustomMetrics(
    activityId: int,
    athleteId: int,
    userFtp: int,             // the FTP the record was computed with
    userWeight: Option<real>,
    customTss: Option<real>,
    intensityFactor: Option<real>,
    trainingLoad: Option<real>,
    power: PowerRecords,
    distance: DistanceRecords,
    calculatedAt: int)

  // ---- power zone ----

  datatype Zone = Recovery | Endurance | Tempo | Threshold | ThresholdPlus {
    function Rank(): nat {
      match this
      case Recovery => 0
      case Endurance => 1
      case Tempo => 2
      case Threshold => 3
      case ThresholdPlus => 4
    }
  }

  /** Intensity-factor thresholds of zones 2 to 5. */
  const ZoneBounds: seq<real> := [0.70, 0.85, 0.95, 1.05]

  /** The zone of an intensity factor: the first threshold from the top that it reaches. */
  function ZoneOf(intensityFactor: real): (z: Zone)
    ensures z.Rank() == Level(intensityFactor, ZoneBounds)
  {
    LevelOfFour(intensityFactor, ZoneBounds);
    if intensityFactor >= 1.05 then ThresholdPlus
    else if intensityFactor >= 0.95 then Threshold
    else if intensityFactor >= 0.85 then Tempo
    else if intensityFactor >= 0.70 then Endurance
    else Recovery
  }

  /** A higher intensity factor never lands in a lower zone; a value on a bound is in the zone above. */
  lemma ZoneMonotone(x: real, y: real)
    requires x <= y
    ensures ZoneOf(x).Rank() <= ZoneOf(y).Rank()
  {
    LevelMonotone(x, y, ZoneBounds);
  }

  lemma ZoneBoundaries()
    ensures Ascending(ZoneBounds)
    ensures ZoneOf(0.70) == Endurance && ZoneOf(0.85) == Tempo
    ensures ZoneOf(0.95) == Threshold && ZoneOf(1.05) == ThresholdPlus
  {
  }

  datatype PowerZoneLabel = UnknownZone | InZone(zone: Zone)

  /** The record's zone; unknown when its intensity factor is missing or zero. */
  function PowerZone(cm: ActivityCustomMetrics): (pz: PowerZoneLabel)
    ensures pz == UnknownZone <==> !Truthy(cm.intensityFactor)
    ensures pz != UnknownZone ==> pz.zone.Rank() == Level(cm.intensityFactor.value, ZoneBounds)
  {
    if !Truthy(cm.intensityFactor) then UnknownZone else InZone(ZoneOf(cm.intensityFactor.value))
  }

  // ---- pace text ----

  /** `int(pace // 60)`: whole minutes per km. */
  function PaceMinutes(pace: real): (minutes: int)
    ensures minutes as real * 60.0 <= pace < minutes as real * 60.0 + 60.0
  {
    (pace / 60.0).Floor
  }

  /** `int(pace % 60)`: the whole seconds left over, always 0 to 59 (Python's `%` takes the divisor's sign). */
  function PaceSeconds(pace: real): (seconds: nat)
    ensures seconds < 60
    ensures (PaceMinutes(pace) * 60 + seconds) as real <= pace < (PaceMinutes(pace) * 60 + seconds + 1) as real
  {
    var rem := pace - 60.0 * PaceMinutes(pace) as real;
    rem.Floor
  }

  /** "M:SS/km" for a time over a distance; absent for a falsy time or a distance that is not positive. */
  function FormatPace(timeSeconds: Option<int>, distanceKm: real): (text: Option<string>)
    ensures text.Some? <==> TruthyInt(timeSeconds) && distanceKm > 0.0
  {
    if !TruthyInt(timeSeconds) || distanceKm <= 0.0 then None
    else
      var pace := timeSeconds.value as real / distanceKm;
      Some(IntText(PaceMinutes(pace)) + ":" + TwoDigitText(PaceSeconds(pace)) + "/km")
  }

  /** Reads "M:SS/km" back into whole minutes and seconds. */
  function ParsePace(text: string): Option<(int, nat)> {
    if |text| < 7 || text[|text| - 3..] != "/km" || text[|text| - 6] != ':' then None
    else
      var secs := text[|text| - 5..|text| - 3];
      match ParseInt(text[..|text| - 6])
      case None => None
      case Some(m) => if AllDigits(secs) then Some((m, DigitsValue(secs))) else None
  }

  /**
   * The pace text means what it says: reading it back gives minutes M and seconds SS < 60
   * such that M*60 + SS is the time per km truncated to the whole second.
   */
  lemma FormatPaceMeaning(timeSeconds: Option<int>, distanceKm: real)
    requires FormatPace(timeSeconds, distanceKm).Some?
    ensures var pace := timeSeconds.value as real / distanceKm;
      && ParsePace(FormatPace(timeSeconds, distanceKm).value).Some?
      && var (m, s) := ParsePace(FormatPace(timeSeconds, distanceKm).value).value;
      && s < 60
      && (m * 60 + s) as real <= pace < (m * 60 + s + 1) as real
  {
    var pace := timeSeconds.value as real / distanceKm;
    var m := PaceMinutes(pace);
    var s := PaceSeconds(pace);
    PaceTextRoundTrip(m, s);
  }

  lemma PaceTextRoundTrip(m: int, s: nat)
    requires s < 60
    ensures ParsePace(IntText(m) + ":" + TwoDigitText(s) + "/km") == Some((m, s))
  {
    var mt := IntText(m);
    var st := TwoDigitText(s);
    var text := mt + ":" + st + "/km";
    IntTextRoundTrip(m);
    IntTextNonEmpty(m);
    TwoDigitTextShape(s);
    assert |text| == |mt| + 6;
    assert text[|text| - 3..] == "/km";
    assert text[|text| - 6] == ':';
    assert text[..|text| - 6] == mt;
    assert text[|text| - 5..|text| - 3] == st;
  }

  lemma IntTextNonEmpty(i: int)
    ensures |IntText(i)| >= 1
  {
    if i < 0 { NatTextDigits(-i); } else { NatTextDigits(i); }
  }

  // ---- comparison with the vendor's score ----

  datatype TssExplanation =
    | Similar                                      // within 5 points
    | CustomHigher(difference: real, userFtp: int)  // the vendor under-estimates the effort
    | CustomLower(difference: real, userFtp: int)   // the vendor over-estimates the effort

  function Abs(x: real): real {
    if x < 0.0 then -x else x
  }

  /** Which explanation a TSS difference (custom minus vendor) receives. */
  function ExplainTssDifference(cm: ActivityCustomMetrics, difference: real): (e: TssExplanation)
    ensures e.Similar? <==> -5.0 < difference < 5.0
    ensures e.CustomHigher? <==> difference >= 5.0
    ensures e.CustomLower? <==> difference <= -5.0
    ensures !e.Similar? ==> e.difference == difference && e.userFtp == cm.userFtp
  {
    if Abs(difference) < 5.0 then Similar
    else if difference > 0.0 then CustomHigher(difference, cm.userFtp)
    else CustomLower(difference, cm.userFtp)
  }

  /** Swapping the two scores swaps "higher" and "lower" and keeps "similar". */
  lemma ExplanationAntisymmetric(cm: ActivityCustomMetrics, difference: real)
    ensures ExplainTssDifference(cm, difference).Similar? <==> ExplainTssDifference(cm, -difference).Similar?
    ensures ExplainTssDifference(cm, difference).CustomHigher? <==> ExplainTssDifference(cm, -difference).CustomLower?
  {
  }

  datatype Comparison = Comparison(
    stravaTss: real,
    customTss: real,
    difference: real,
    percentageDifference: real,
    explanation: TssExplanation)

  /** Custom TSS against the vendor's suffer score; absent unless both are truthy. */
  function ComparisonVsStrava(cm: ActivityCustomMetrics, sufferScore: Option<real>): (c: Option<Comparison>)
    ensures c.Some? <==> Truthy(cm.customTss) && Truthy(sufferScore)
    ensures c.Some? ==>
      var d := cm.customTss.value - sufferScore.value;
      && c.value.stravaTss == sufferScore.value
      && c.value.customTss == cm.customTss.value
      && c.value.difference == Round(d, 1)
      && c.value.percentageDifference == Round(d / sufferScore.value * 100.0, 1)
      && c.value.explanation == ExplainTssDifference(cm, d)
  {
    if !Truthy(cm.customTss) || !Truthy(sufferScore) then None
    else
      var d := cm.customTss.value - sufferScore.value;
      Some(Comparison(sufferScore.value, cm.customTss.value, Round(d, 1),
                      Round(d / sufferScore.value * 100.0, 1), ExplainTssDifference(cm, d)))
  }

  // ---- performance summary ----

  datatype TssInfo = TssInfo(customTss: Option<real>, intensityFactor: Option<real>, powerZone: PowerZoneLabel, ftpUsed: int)
  datatype PowerRecordSummary = PowerRecordSummary(records: PowerRecords, estimatedFtp: Option<real>)

  datatype DistanceRecordSummary = DistanceRecordSummary(timeSeconds: int, pace: Option<string>)

  /** The distance block: the "1km", "5km" and "10km" keys, each present or absent, in that order. */
  datatype DistanceBlock = DistanceBlock(
    oneKm: Option<DistanceRecordSummary>,
    fiveKm: Option<DistanceRecordSummary>,
    tenKm: Option<DistanceRecordSummary>)

  datatype PerformanceSummary = PerformanceSummary(
    tssInfo: TssInfo,
    powerRecords: Option<PowerRecordSummary>,  // None is the empty dict
    distanceRecords: DistanceBlock)

  /** The entry for a distance: present iff the stored time is truthy, with the pace over `km`. */
  predicate EntryMatches(entry: Option<DistanceRecordSummary>, time: Option<int>, km: real) {
    && (entry.Some? <==> TruthyInt(time))
    && (entry.Some? ==> entry.value == DistanceRecordSummary(time.value, FormatPace(time, km)))
  }

  /** Builds the summary step by step: TSS block, power records if any, then the 1, 5 and 10 km entries. */
  method GetPerformanceSummary(cm: ActivityCustomMetrics) returns (s: PerformanceSummary)
    ensures s.tssInfo == TssInfo(Present(cm.customTss), Present(cm.intensityFactor), PowerZone(cm), cm.userFtp)
    ensures s.powerRecords.Some? <==>
      TruthyInt(cm.power.best1min) || TruthyInt(cm.power.best5min) || TruthyInt(cm.power.best20min)
    ensures s.powerRecords.Some? ==>
      && s.powerRecords.value.records == cm.power
      && (s.powerRecords.value.estimatedFtp.Some? <==> TruthyInt(cm.power.best20min))
      && (TruthyInt(cm.power.best20min) ==>
            s.powerRecords.value.estimatedFtp.value == cm.power.best20min.value as real * 0.95)
    ensures EntryMatches(s.distanceRecords.oneKm, cm.distance.best1km, 1.0)
    ensures EntryMatches(s.distanceRecords.fiveKm, cm.distance.best5km, 5.0)
    ensures EntryMatches(s.distanceRecords.tenKm, cm.distance.best10km, 10.0)
  {
    var tssInfo := TssInfo(Present(cm.customTss), Present(cm.intensityFactor), PowerZone(cm), cm.userFtp);
    var powerRecords: Option<PowerRecordSummary> := None;
    if TruthyInt(cm.power.best1min) || TruthyInt(cm.power.best5min) || TruthyInt(cm.power.best20min) {
      var estimated := if TruthyInt(cm.power.best20min) then Some(cm.power.best20min.value as real * 0.95) else None;
      powerRecords := Some(PowerRecordSummary(cm.power, estimated));
    }
    var distanceRecords := DistanceBlock(None, None, None);
    if TruthyInt(cm.distance.best1km) {
      var time := cm.distance.best1km;
      distanceRecords := distanceRecords.(oneKm := Some(DistanceRecordSummary(time.value, FormatPace(time, 1.0))));
    }
    if TruthyInt(cm.distance.best5km) {
      var time := cm.distance.best5km;
      distanceRecords := distanceRecords.(fiveKm := Some(DistanceRecordSummary(time.value, FormatPace(time, 5.0))));
    }
    if TruthyInt(cm.distance.best10km) {
      var time := cm.distance.best10km;
      distanceRecords := distanceRecords.(tenKm := Some(DistanceRecordSummary(time.value, FormatPace(time, 10.0))));
    }
    s := PerformanceSummary(tssInfo, powerRecords, distanceRecords);
  }

  /**
   * `int(p * 0.95)`: the FTP a 20-minute best power suggests. For a non-negative power it is
   * 95 % of it truncated to a whole watt, hence never above the power itself.
   */
  function FtpFrom20Min(watts: int): (ftp: int)
    ensures watts >= 0 ==> 0 <= ftp <= watts
    ensures watts >= 0 ==> ftp as real <= watts as real * 0.95 < ftp as real + 1.0
    ensures watts >= 20 ==> ftp >= 19
  {
    Trunc(watts as real * 0.95)
  }

  // ---- athlete settings ----

  /** A value passed to `update_settings`; `NoneValue` is Python's None. */
  datatype SettingValue = NoneValue | IntValue(i: int) | RealValue(r: real) | BoolValue(b: bool)

  /** How an integer column stores the value (a bool is an int in Python); None when it is not one. */
  function AsInt(v: SettingValue): Option<int> {
    match v
    case IntValue(i) => Some(i)
    case BoolValue(b) => Some(if b then 1 else 0)
    case _ => None
  }

  function AsReal(v: SettingValue): Option<real> {
    match v
    case IntValue(i) => Some(i as real)
    case RealValue(r) => Some(r)
    case BoolValue(b) => Some(if b then 1.0 else 0.0)
    case NoneValue => None
  }

  function AsBool(v: SettingValue): Option<bool> {
    match v
    case BoolValue(b) => Some(b)
    case IntValue(i) => Some(i != 0)
    case _ => None
  }

  /**
   * A keyword of `update_settings`: the columns of the row, or any other name (which names no
   * column, so `hasattr` rejects it or the assignment touches nothing the model keeps).
   */
  datatype SettingKey =
    | AthleteIdKey | CurrentFtpKey | MaxHeartrateKey | RestingHeartrateKey | WeightKey
    | AutoUpdateFtpKey | FtpTestDetectionKey | UpdatedAtKey | OtherKey(name: string)

  /** The value a setting takes after the update: the given one when present and convertible, else the old one. */
  function IntSetting(kwargs: map<SettingKey, SettingValue>, key: SettingKey, current: int): int {
    if key in kwargs && AsInt(kwargs[key]).Some? then AsInt(kwargs[key]).value else current
  }

  function OptIntSetting(kwargs: map<SettingKey, SettingValue>, key: SettingKey, current: Option<int>): Option<int> {
    if key in kwargs && AsInt(kwargs[key]).Some? then AsInt(kwargs[key]) else current
  }

  function OptRealSetting(kwargs: map<SettingKey, SettingValue>, key: SettingKey, current: Option<real>): Option<real> {
    if key in kwargs && AsReal(kwargs[key]).Some? then AsReal(kwargs[key]) else current
  }

  function BoolSetting(kwargs: map<SettingKey, SettingValue>, key: SettingKey, current: bool): bool {
    if key in kwargs && AsBool(kwargs[key]).Some? then AsBool(kwargs[key]).value else current
  }

  /** The columns of a settings row that `update_settings` may assign (all but `updated_at`). */
  datatype SettingsValues = SettingsValues(
    athleteId: int, currentFtp: int, maxHeartrate: Option<int>, restingHeartrate: Option<int>,
    weight: Option<real>, autoUpdateFtp: bool, ftpTestDetection: bool)

  /** `setattr(row, key, value)`: the named column takes the value when its type accepts it. */
  function WithSetting(v: SettingsValues, key: SettingKey, value: SettingValue): SettingsValues {
    match key
    case AthleteIdKey => if AsInt(value).Some? then v.(athleteId := AsInt(value).value) else v
    case CurrentFtpKey => if AsInt(value).Some? then v.(currentFtp := AsInt(value).value) else v
    case MaxHeartrateKey => if AsInt(value).Some? then v.(maxHeartrate := AsInt(value)) else v
    case RestingHeartrateKey => if AsInt(value).Some? then v.(restingHeartrate := AsInt(value)) else v
    case WeightKey => if AsReal(value).Some? then v.(weight := AsReal(value)) else v
    case AutoUpdateFtpKey => if AsBool(value).Some? then v.(autoUpdateFtp := AsBool(value).value) else v
    case FtpTestDetectionKey => if AsBool(value).Some? then v.(ftpTestDetection := AsBool(value).value) else v
    case UpdatedAtKey => v
    case OtherKey(_) => v
  }

  /** The row after all keyword arguments are applied: each column reads its own keyword, if any. */
  function WithSettings(kwargs: map<SettingKey, SettingValue>, v: SettingsValues): (r: SettingsValues)
    ensures r.athleteId == IntSetting(kwargs, AthleteIdKey, v.athleteId)
    ensures r.currentFtp == IntSetting(kwargs, CurrentFtpKey, v.currentFtp)
    ensures r.maxHeartrate == OptIntSetting(kwargs, MaxHeartrateKey, v.maxHeartrate)
    ensures r.restingHeartrate == OptIntSetting(kwargs, RestingHeartrateKey, v.restingHeartrate)
    ensures r.weight == OptRealSetting(kwargs, WeightKey, v.weight)
    ensures r.autoUpdateFtp == BoolSetting(kwargs, AutoUpdateFtpKey, v.autoUpdateFtp)
    ensures r.ftpTestDetection == BoolSetting(kwargs, FtpTestDetectionKey, v.ftpTestDetection)
  {
    SettingsValues(
      IntSetting(kwargs, AthleteIdKey, v.athleteId), IntSetting(kwargs, CurrentFtpKey, v.currentFtp),
      OptIntSetting(kwargs, MaxHeartrateKey, v.maxHeartrate),
      OptIntSetting(kwargs, RestingHeartrateKey, v.restingHeartrate),
      OptRealSetting(kwargs, WeightKey, v.weight),
      BoolSetting(kwargs, AutoUpdateFtpKey, v.autoUpdateFtp),
      BoolSetting(kwargs, FtpTestDetectionKey, v.ftpTestDetection))
  }

  /** Applying one more, not yet applied, keyword is one more `setattr`: the order of the keywords does not matter. */
  lemma WithSettingsPut(kwargs: map<SettingKey, SettingValue>, key: SettingKey, value: SettingValue, v: SettingsValues)
    requires key !in kwargs
    ensures WithSettings(kwargs[key := value], v) == WithSetting(WithSettings(kwargs, v), key, value)
  {
    IntSettingPut(kwargs, key, value, AthleteIdKey, v.athleteId);
    IntSettingPut(kwargs, key, value, CurrentFtpKey, v.currentFtp);
    OptIntSettingPut(kwargs, key, value, MaxHeartrateKey, v.maxHeartrate);
    OptIntSettingPut(kwargs, key, value, RestingHeartrateKey, v.restingHeartrate);
    OptRealSettingPut(kwargs, key, value, WeightKey, v.weight);
    BoolSettingPut(kwargs, key, value, AutoUpdateFtpKey, v.autoUpdateFtp);
    BoolSettingPut(kwargs, key, value, FtpTestDetectionKey, v.ftpTestDetection);
  }

  lemma IntSettingPut(kwargs: map<SettingKey, SettingValue>, key: SettingKey, value: SettingValue, k: SettingKey, c: int)
    requires key !in kwargs
    ensures IntSetting(kwargs[key := value], k, c) ==
      if k == key then (if AsInt(value).Some? then AsInt(value).value else c) else IntSetting(kwargs, k, c)
  {
  }

  lemma OptIntSettingPut(kwargs: map<SettingKey, SettingValue>, key: SettingKey, value: SettingValue, k: SettingKey, c: Option<int>)
    requires key !in kwargs
    ensures OptIntSetting(kwargs[key := value], k, c) ==
      if k == key then (if AsInt(value).Some? then AsInt(value) else c) else OptIntSetting(kwargs, k, c)
  {
  }

  lemma OptRealSettingPut(kwargs: map<SettingKey, SettingValue>, key: SettingKey, value: SettingValue, k: SettingKey, c: Option<real>)
    requires key !in kwargs
    ensures OptRealSetting(kwargs[key := value], k, c) ==
      if k == key then (if AsReal(value).Some? then AsReal(value) else c) else OptRealSetting(kwargs, k, c)
  {
  }

  lemma BoolSettingPut(kwargs: map<SettingKey, SettingValue>, key: SettingKey, value: SettingValue, k: SettingKey, c: bool)
    requires key !in kwargs
    ensures BoolSetting(kwargs[key := value], k, c) ==
      if k == key then (if AsBool(value).Some? then AsBool(value).value else c) else BoolSetting(kwargs, k, c)
  {
  }

  /** Updating twice with the same keywords is the same as updating once. */
  lemma WithSettingsIdempotent(kwargs: map<SettingKey, SettingValue>, v: SettingsValues)
    ensures WithSettings(kwargs, WithSettings(kwargs, v)) == WithSettings(kwargs, v)
  {
  }

  /** With no keywords nothing changes. */
  lemma WithNoSettings(v: SettingsValues)
    ensures WithSettings(map[], v) == v
  {
  }

  datatype PowerZoneBounds = PowerZoneBounds(ftpBase: int, z2From: int, z3From: int, z4From: int, z5From: int)
  datatype HrZoneBounds = HrZoneBounds(maxHrBase: int, z2From: int, z3From: int, z4From: int, z5From: int)
  datatype ZonesConfiguration = ZonesConfiguration(powerZones: PowerZoneBounds, heartRateZones: Option<HrZoneBounds>)

  datatype FtpAction = Update | Consider

  datatype FtpEstimate =
    | CurrentFtp(ftp: int)  // no 20-minute power to go on: the current FTP is returned as is
    | NoChange              // the estimate is within 5 W of the current FTP
    | Proposal(currentFtp: int, estimatedFtp: int, difference: int, recommendation: FtpAction, best20min: int)

  datatype Focus = RaiseOverallIntensity | MoreActiveRecovery | RaiseVolume | PlanRecoveryWeek
  datatype Guidance = AerobicRange | AlternateEasySessions
  datatype TrainingRecommendations = TrainingRecommendations(trainingFocus: seq<Focus>, intensityGuidance: seq<Guidance>)

  class AthleteSettings {
    var athleteId: int
    var currentFtp: int
    var maxHeartrate: Option<int>
    var restingHeartrate: Option<int>
    var weight: Option<real>
    var autoUpdateFtp: bool
    var ftpTestDetection: bool
    var updatedAt: int

    /** A new row for an athlete: only the FTP is set, the flags take their column defaults. */
    constructor (athleteId: int, currentFtp: int, now: int)
      ensures this.athleteId == athleteId && this.currentFtp == currentFtp
      ensures maxHeartrate == None && restingHeartrate == None && weight == None
      ensures autoUpdateFtp && ftpTestDetection && updatedAt == now
    {
      this.athleteId := athleteId;
      this.currentFtp := currentFtp;
      maxHeartrate := None;
      restingHeartrate := None;
      weight := None;
      autoUpdateFtp := true;
      ftpTestDetection := true;
      updatedAt := now;
    }

    /**
     * Power zone boundaries at 55/75/90/105 % of FTP and, iff a maximum heart rate is set,
     * heart-rate boundaries at 68/83/94/105 % of it, each truncated to a whole number.
     */
    function GetZonesConfiguration(): (z: ZonesConfiguration)
      reads this
      ensures z.powerZones.ftpBase == currentFtp
      ensures currentFtp >= 0 ==>
        0 <= z.powerZones.z2From <= z.powerZones.z3From <= z.powerZones.z4From <= z.powerZones.z5From
      ensures currentFtp >= 0 ==>
        && z.powerZones.z2From as real <= currentFtp as real * 0.55 < z.powerZones.z2From as real + 1.0
        && z.powerZones.z3From as real <= currentFtp as real * 0.75 < z.powerZones.z3From as real + 1.0
        && z.powerZones.z4From as real <= currentFtp as real * 0.90 < z.powerZones.z4From as real + 1.0
        && z.powerZones.z5From as real <= currentFtp as real * 1.05 < z.powerZones.z5From as real + 1.0
      ensures z.heartRateZones.Some? <==> TruthyInt(maxHeartrate)
      ensures z.heartRateZones.Some? && maxHeartrate.value >= 0 ==>
        var h := z.heartRateZones.value;
        var m := maxHeartrate.value as real;
        && h.maxHrBase == maxHeartrate.value && 0 <= h.z2From <= h.z3From <= h.z4From <= h.z5From
        && h.z2From as real <= m * 0.68 < h.z2From as real + 1.0
        && h.z3From as real <= m * 0.83 < h.z3From as real + 1.0
        && h.z4From as real <= m * 0.94 < h.z4From as real + 1.0
        && h.z5From as real <= m * 1.05 < h.z5From as real + 1.0
    {
      ZonesConfiguration(
        PowerBoundsOf(currentFtp),
        if TruthyInt(maxHeartrate) then Some(HrBoundsOf(maxHeartrate.value)) else None)
    }

    /**
     * The FTP that 95 % of a 20-minute best suggests, proposed only when it differs from the
     * current FTP by more than 5 W, as an update when by more than 10 W.
     */
    function EstimateFtpFromPerformances(best20min: Option<int>): (e: FtpEstimate)
      reads this
      ensures !TruthyInt(best20min) ==> e == CurrentFtp(currentFtp)
      ensures TruthyInt(best20min) ==>
        var estimated := FtpFrom20Min(best20min.value);
        var diff := estimated - currentFtp;
        && (e == NoChange <==> -5 <= diff <= 5)
        && (e.Proposal? <==> diff < -5 || diff > 5)
        && (e.Proposal? ==>
              && e.currentFtp == currentFtp && e.estimatedFtp == estimated && e.difference == diff
              && e.best20min == best20min.value
              && (e.recommendation == Update <==> diff < -10 || diff > 10))
    {
      if !TruthyInt(best20min) then CurrentFtp(currentFtp)
      else
        var estimated := FtpFrom20Min(best20min.value);
        var diff := estimated - currentFtp;
        if AbsInt(diff) > 5 then
          Proposal(currentFtp, estimated, diff, if AbsInt(diff) > 10 then Update else Consider, best20min.value)
        else NoChange
    }

    /** The assignable columns as one value. */
    function Values(): SettingsValues
      reads this
    {
      SettingsValues(athleteId, currentFtp, maxHeartrate, restingHeartrate, weight, autoUpdateFtp, ftpTestDetection)
    }

    /**
     * `update_settings(**kwargs)`: assigns every keyword that names a column and carries a value
     * (Python's `hasattr` and `is not None`), one key at a time in any order, then stamps the
     * update time.
     */
    method UpdateSettings(kwargs: map<SettingKey, SettingValue>, now: int)
      modifies this
      ensures Values() == WithSettings(kwargs, old(Values()))
      ensures updatedAt == now
    {
      var pending := kwargs.Keys;
      ghost var done: map<SettingKey, SettingValue> := map[];
      while pending != {}
        invariant pending <= kwargs.Keys
        invariant forall k :: k in done <==> k in kwargs && k !in pending
        invariant forall k :: k in done ==> done[k] == kwargs[k]
        invariant Values() == WithSettings(done, old(Values()))
        decreases |pending|
      {
        var key :| key in pending;
        var value := kwargs[key];
        WithSettingsPut(done, key, value, old(Values()));
        SetAttribute(key, value);
        done := done[key := value];
        pending := pending - {key};
      }
      assert done == kwargs;
      updatedAt := now;
    }

    method SetAttribute(key: SettingKey, value: SettingValue)
      modifies this
      ensures Values() == WithSetting(old(Values()), key, value)
      ensures updatedAt == old(updatedAt)
    {
      match key {
        case AthleteIdKey => if AsInt(value).Some? { athleteId := AsInt(value).value; }
        case CurrentFtpKey => if AsInt(value).Some? { currentFtp := AsInt(value).value; }
        case MaxHeartrateKey => if AsInt(value).Some? { maxHeartrate := AsInt(value); }
        case RestingHeartrateKey => if AsInt(value).Some? { restingHeartrate := AsInt(value); }
        case WeightKey => if AsReal(value).Some? { weight := AsReal(value); }
        case AutoUpdateFtpKey => if AsBool(value).Some? { autoUpdateFtp := AsBool(value).value; }
        case FtpTestDetectionKey => if AsBool(value).Some? { ftpTestDetection := AsBool(value).value; }
        case UpdatedAtKey =>
        case OtherKey(_) =>
      }
    }

    /**
     * At most one intensity rule (average IF below 0.70 or above 0.90) and at most one volume
     * rule (total TSS below 200 or above 600); a falsy input adds nothing.
     */
    method GetTrainingRecommendations(recentAvgIf: Option<real>, recentTotalTss: Option<real>)
      returns (r: TrainingRecommendations)
      ensures RaiseOverallIntensity in r.trainingFocus <==> Truthy(recentAvgIf) && recentAvgIf.value < 0.70
      ensures MoreActiveRecovery in r.trainingFocus <==> Truthy(recentAvgIf) && recentAvgIf.value > 0.90
      ensures RaiseVolume in r.trainingFocus <==> Truthy(recentTotalTss) && recentTotalTss.value < 200.0
      ensures PlanRecoveryWeek in r.trainingFocus <==> Truthy(recentTotalTss) && recentTotalTss.value > 600.0
      ensures AerobicRange in r.intensityGuidance <==> RaiseOverallIntensity in r.trainingFocus
      ensures AlternateEasySessions in r.intensityGuidance <==> MoreActiveRecovery in r.trainingFocus
      ensures |r.trainingFocus| <= 2 && |r.intensityGuidance| <= 1
      ensures |r.trainingFocus| == 2 ==>
        r.trainingFocus[0] in {RaiseOverallIntensity, MoreActiveRecovery} && r.trainingFocus[1] in {RaiseVolume, PlanRecoveryWeek}
      ensures forall i, j :: 0 <= i < j < |r.trainingFocus| ==> r.trainingFocus[i] != r.trainingFocus[j]
    {
      var focus: seq<Focus> := [];
      var guidance: seq<Guidance> := [];
      if Truthy(recentAvgIf) {
        if recentAvgIf.value < 0.70 {
          focus := focus + [RaiseOverallIntensity];
          guidance := guidance + [AerobicRange];
        } else if recentAvgIf.value > 0.90 {
          focus := focus + [MoreActiveRecovery];
          guidance := guidance + [AlternateEasySessions];
        }
      }
      if Truthy(recentTotalTss) {
        if recentTotalTss.value < 200.0 {
          focus := focus + [RaiseVolume];
        } else if recentTotalTss.value > 600.0 {
          focus := focus + [PlanRecoveryWeek];
        }
      }
      r := TrainingRecommendations(focus, guidance);
    }
  }

  /** Boundaries of power zones 2 to 5 at 55, 75, 90 and 105 % of FTP, truncated. */
  function PowerBoundsOf(ftp: int): (b: PowerZoneBounds)
    ensures b.ftpBase == ftp
    ensures ftp >= 0 ==> 0 <= b.z2From <= b.z3From <= b.z4From <= b.z5From
    ensures ftp >= 0 ==>
      && b.z2From as real <= ftp as real * 0.55 < b.z2From as real + 1.0
      && b.z3From as real <= ftp as real * 0.75 < b.z3From as real + 1.0
      && b.z4From as real <= ftp as real * 0.90 < b.z4From as real + 1.0
      && b.z5From as real <= ftp as real * 1.05 < b.z5From as real + 1.0
  {
    var f := ftp as real;
    var b := PowerZoneBounds(ftp, Trunc(f * 0.55), Trunc(f * 0.75), Trunc(f * 0.90), Trunc(f * 1.05));
    if ftp >= 0 then
      TruncMonotone(f * 0.55, f * 0.75); TruncMonotone(f * 0.75, f * 0.90); TruncMonotone(f * 0.90, f * 1.05);
      b
    else b
  }

  /** Boundaries of heart-rate zones 2 to 5 at 68, 83, 94 and 105 % of the maximum, truncated. */
  function HrBoundsOf(maxHr: int): (b: HrZoneBounds)
    ensures b.maxHrBase == maxHr
    ensures maxHr >= 0 ==> 0 <= b.z2From <= b.z3From <= b.z4From <= b.z5From
    ensures maxHr >= 0 ==>
      && b.z2From as real <= maxHr as real * 0.68 < b.z2From as real + 1.0
      && b.z3From as real <= maxHr as real * 0.83 < b.z3From as real + 1.0
      && b.z4From as real <= maxHr as real * 0.94 < b.z4From as real + 1.0
      && b.z5From as real <= maxHr as real * 1.05 < b.z5From as real + 1.0
  {
    var m := maxHr as real;
    var b := HrZoneBounds(maxHr, Trunc(m * 0.68), Trunc(m * 0.83), Trunc(m * 0.94), Trunc(m * 1.05));
    if maxHr >= 0 then
      TruncMonotone(m * 0.68, m * 0.83); TruncMonotone(m * 0.83, m * 0.94); TruncMonotone(m * 0.94, m * 1.05);
      b
    else b
  }

  function AbsInt(x: int): nat {
    if x < 0 then -x else x
  }

  /** The `athlete_settings` table, keyed by athlete id. */
  class SettingsTable {
    var rows: map<int, AthleteSettings>

    constructor ()
      ensures Valid() && rows == map[]
    {
      rows := map[];
    }

    /** `athlete_id` is the primary key: each row sits under its own athlete id. */
    ghost predicate Valid()
      reads this, rows.Values
    {
      forall k :: k in rows ==> rows[k].athleteId == k
    }

    /** The athlete's row, inserting a fresh one with the given FTP when there is none. */
    method GetOrCreateForAthlete(athleteId: int, defaultFtp: int, now: int) returns (s: AthleteSettings)
      requires Valid()
      modifies this
      ensures Valid() && s.athleteId == athleteId
      ensures athleteId in old(rows) ==> s == old(rows)[athleteId] && rows == old(rows)
      ensures athleteId !in old(rows) ==>
        && fresh(s) && rows == old(rows)[athleteId := s]
        && s.athleteId == athleteId && s.currentFtp == defaultFtp
        && s.maxHeartrate == None && s.restingHeartrate == None && s.weight == None
        && s.autoUpdateFtp && s.ftpTestDetection && s.updatedAt == now
      ensures athleteId in rows && rows[athleteId] == s
    {
      if athleteId in rows {
        s := rows[athleteId];
      } else {
        s := new AthleteSettings(athleteId, defaultFtp, now);
        rows := rows[athleteId := s];
      }
    }
  }
}
