/**
 * The arithmetic and validation inside the activity routes: value conversion for the CSV
 * export, the page size and page count, the coverage statistics, the weighted intensity-zone
 * histogram of the custom training summary, and the FTP validation and updates of the settings
 * and FTP-update routes.
 */
module ActivityRoutes {
  import opened Wrappers
  import opened PyNum
  import opened Database
  import opened CustomMetrics
  import opened MetricFormulas
  import opened LoadAnalysis
  import opened Calculator
  import StravaMetrics

  /** `safe_float` on a nullable numeric column: the default for NULL, the value otherwise. */
  function SafeFloat(value: Option<real>, default: real): (r: real)
    ensures value.None? ==> r == default
    ensures value.Some? ==> r == value.value
  {
    if value.None? then default else value.value
  }

  // ---- pagination ----

  const DefaultPerPage := 50
  const MaxPerPage := 200

  /** `min(request.args.get('per_page', 50, type=int), 200)`; an absent or non-integer argument reads as 50. */
  function PerPage(requested: Option<int>): (perPage: int)
    ensures perPage <= MaxPerPage
    ensures requested.None? ==> perPage == DefaultPerPage
    ensures requested.Some? && requested.value <= MaxPerPage ==> perPage == requested.value
    ensures requested.Some? && requested.value > MaxPerPage ==> perPage == MaxPerPage
  {
    var p := requested.GetOr(DefaultPerPage);
    if p <= MaxPerPage then p else MaxPerPage
  }

  /** Python's `a // b`: the floor of the quotient, for either sign of `b`. */
  function FloorDiv(a: int, b: int): (q: int)
    requires b != 0
    ensures b > 0 ==> q * b <= a < q * b + b
    ensures b < 0 ==> q * b >= a > q * b + b
  {
    if b > 0 then a / b else (-a) / (-b)
  }

  /** `(total + per_page - 1) // per_page`; a page size of 0 raises, which the route reports as an error. */
  function Pages(total: nat, perPage: int): (pages: Option<int>)
    ensures pages.None? <==> perPage == 0
  {
    if perPage == 0 then None else Some(FloorDiv(total + perPage - 1, perPage))
  }

  /** For a positive page size the page count is the ceiling of total / per_page: the fewest pages holding every activity. */
  lemma PagesIsCeiling(total: nat, perPage: int)
    requires perPage > 0
    ensures var p := Pages(total, perPage).value;
      && p >= 0
      && p * perPage >= total
      && (total > 0 ==> (p - 1) * perPage < total)
      && (total == 0 ==> p == 0)
  {
    var p := Pages(total, perPage).value;
    assert p * perPage <= total + perPage - 1 < p * perPage + perPage;
    MulMonotone(p, perPage);
  }

  lemma MulMonotone(p: int, b: int)
    requires b > 0
    ensures p < 0 ==> p * b <= -b
    ensures p >= 0 ==> p * b >= 0
  {
  }

  // ---- coverage ----

  datatype MetricsStatus = MetricsStatus(
    totalActivities: nat,
    withStrava: nat, withoutStrava: int, stravaCoverage: real,
    withCustom: nat, withoutCustom: int, customCoverage: real)

  /** `get_metrics_status` after its counts: activities with and without each kind of metrics, and the coverage percentages. */
  function MetricsStatusOf(total: nat, withStrava: nat, withCustom: nat): (s: MetricsStatus)
    ensures s.withStrava + s.withoutStrava == total && s.withCustom + s.withoutCustom == total
    ensures total == 0 ==> s.stravaCoverage == 0.0 && s.customCoverage == 0.0
    ensures withStrava <= total ==> s.withoutStrava >= 0 && 0.0 <= s.stravaCoverage <= 100.0
    ensures withCustom <= total ==> s.withoutCustom >= 0 && 0.0 <= s.customCoverage <= 100.0
    ensures withStrava == total && total > 0 ==> s.stravaCoverage == 100.0
    ensures withCustom == total && total > 0 ==> s.customCoverage == 100.0
    ensures total > 0 ==>
      && withStrava as real / total as real * 100.0 - 0.05 < s.stravaCoverage <= withStrava as real / total as real * 100.0 + 0.05
      && withCustom as real / total as real * 100.0 - 0.05 < s.customCoverage <= withCustom as real / total as real * 100.0 + 0.05
  {
    MetricsStatus(
      total,
      withStrava, total - withStrava, StravaMetrics.CoveragePercentage(withStrava, total),
      withCustom, total - withCustom, StravaMetrics.CoveragePercentage(withCustom, total))
  }

  // ---- weighted zone histogram ----

  /** One result row of the zone query: an intensity factor and the count reported with it. */
  datatype ZoneStat = ZoneStat(intensityFactor: real, count: nat)

  /** Each row's count added to the zone of its intensity factor. */
  function WeightedZones(stats: seq<ZoneStat>): ZoneCounts {
    if stats == [] then NoZones
    else
      var last := stats[|stats| - 1];
      WeightedZones(stats[..|stats| - 1]).Add(ZoneOf(last.intensityFactor), last.count)
  }

  function CountSum(stats: seq<ZoneStat>): nat {
    if stats == [] then 0 else CountSum(stats[..|stats| - 1]) + stats[|stats| - 1].count
  }

  function CountInZone(stats: seq<ZoneStat>, z: Zone): nat {
    if stats == [] then 0
    else
      var last := stats[|stats| - 1];
      CountInZone(stats[..|stats| - 1], z) + if ZoneOf(last.intensityFactor) == z then last.count else 0
  }

  /** The zone totals add up to the summed counts, and each zone holds the counts of its rows. */
  lemma {:induction false} WeightedZonesTotals(stats: seq<ZoneStat>, z: Zone)
    ensures WeightedZones(stats).Total() == CountSum(stats)
    ensures WeightedZones(stats).Of(z) == CountInZone(stats, z)
    decreases |stats|
  {
    if stats != [] {
      WeightedZonesTotals(stats[..|stats| - 1], z);
    }
  }

  /** The zone loop of `get_training_summary_custom`. */
  method TrainingSummaryZones(stats: seq<ZoneStat>) returns (zones: ZoneCounts)
    ensures zones == WeightedZones(stats)
    ensures zones.Total() == CountSum(stats)
  {
    zones := NoZones;
    for i := 0 to |stats|
      invariant zones == WeightedZones(stats[..i])
    {
      assert stats[..i + 1][..i] == stats[..i];
      zones := zones.Add(ZoneOf(stats[i].intensityFactor), stats[i].count);
    }
    assert stats[..|stats|] == stats;
    WeightedZonesTotals(stats, Recovery);
  }

  // ---- FTP validation ----

  /** A JSON value of a request body; an array or object is given by its number of elements. */
  datatype Json = JNull | JBool(b: bool) | JInt(i: int) | JReal(r: real) | JString(s: string) | JArray(length: nat) | JObject(size: nat)

  /**
   * `isinstance(v, int) and v > 0`: a positive JSON integer. Python's `bool` is an `int`, so
   * JSON `true` passes too; the model reads it as the value 1, assuming the store accepts it.
   */
  function ValidFtp(v: Json): (ftp: Option<int>)
    ensures ftp.Some? <==> (v.JInt? && v.i > 0) || v == JBool(true)
    ensures ftp.Some? ==> ftp.value > 0
    ensures v.JInt? && v.i > 0 ==> ftp == Some(v.i)
    ensures v == JBool(true) ==> ftp == Some(1)
  {
    match v
    case JInt(i) => if i > 0 then Some(i) else None
    case JBool(b) => if b then Some(1) else None
    case _ => None
  }

  /** The body's value under a key, JSON null when absent (`data.get(key)`). */
  function Field(data: map<string, Json>, key: string): Json {
    if key in data then data[key] else JNull
  }

  /**
   * An integer column value from the body: null for JSON null, the number for an integer; a
   * boolean is taken as 0 or 1, assuming the store accepts it.
   */
  function IntColumn(v: Json): Option<int> {
    match v
    case JInt(i) => Some(i)
    case JBool(b) => Some(if b then 1 else 0)
    case _ => None
  }

  /** A numeric column value from the body. */
  function RealColumn(v: Json): Option<real> {
    match v
    case JInt(i) => Some(i as real)
    case JReal(r) => Some(r)
    case JBool(b) => Some(if b then 1.0 else 0.0)
    case _ => None
  }

  /** The optional settings fields are null, absent, or of their column's type. */
  predicate ColumnTyped(data: map<string, Json>) {
    && (Field(data, "max_heartrate").JNull? || IntColumn(Field(data, "max_heartrate")).Some?)
    && (Field(data, "resting_heartrate").JNull? || IntColumn(Field(data, "resting_heartrate")).Some?)
    && (Field(data, "weight").JNull? || RealColumn(Field(data, "weight")).Some?)
  }

  datatype SettingsOutcome = FtpRequired | FtpNotPositiveInt | Saved(settings: AthleteSettings)

  /**
   * `set_athlete_settings`: the body must carry a valid `ftp`; the athlete's row, existing or
   * new, then gets that FTP and the body's heart rates and weight (null when absent).
   */
  method SetAthleteSettings(table: SettingsTable, athleteId: int, data: map<string, Json>, now: int)
    returns (r: SettingsOutcome)
    requires ColumnTyped(data) && table.Valid()
    modifies table, table.rows.Values
    ensures table.Valid()
    ensures "ftp" !in data ==> r == FtpRequired && table.rows == old(table.rows) && unchanged(table.rows.Values)
    ensures "ftp" in data && ValidFtp(data["ftp"]).None? ==>
      r == FtpNotPositiveInt && table.rows == old(table.rows) && unchanged(table.rows.Values)
    ensures forall k :: k in old(table.rows) && k != athleteId ==>
      k in table.rows && table.rows[k] == old(table.rows[k]) && unchanged(table.rows[k])
    ensures "ftp" in data && ValidFtp(data["ftp"]).Some? ==>
      && r.Saved? && athleteId in table.rows && table.rows[athleteId] == r.settings
      && table.rows == old(table.rows)[athleteId := r.settings]
      && (athleteId in old(table.rows) ==>
            && r.settings == old(table.rows)[athleteId]
            && r.settings.athleteId == old(r.settings.athleteId)
            && r.settings.autoUpdateFtp == old(r.settings.autoUpdateFtp)
            && r.settings.ftpTestDetection == old(r.settings.ftpTestDetection))
      && (athleteId !in old(table.rows) ==>
            fresh(r.settings) && r.settings.athleteId == athleteId
            && r.settings.autoUpdateFtp && r.settings.ftpTestDetection)
      && r.settings.currentFtp == ValidFtp(data["ftp"]).value
      && r.settings.maxHeartrate == IntColumn(Field(data, "max_heartrate"))
      && r.settings.restingHeartrate == IntColumn(Field(data, "resting_heartrate"))
      && r.settings.weight == RealColumn(Field(data, "weight"))
      && r.settings.updatedAt == now
  {
    if "ftp" !in data {
      return FtpRequired;
    }
    var ftp := ValidFtp(data["ftp"]);
    if ftp.None? {
      return FtpNotPositiveInt;
    }
    var s: AthleteSettings;
    if athleteId in table.rows {
      s := table.rows[athleteId];
    } else {
      s := new AthleteSettings(athleteId, ftp.value, now);
      table.rows := table.rows[athleteId := s];
    }
    s.currentFtp := ftp.value;
    s.maxHeartrate := IntColumn(Field(data, "max_heartrate"));
    s.restingHeartrate := IntColumn(Field(data, "resting_heartrate"));
    s.weight := RealColumn(Field(data, "weight"));
    s.updatedAt := now;
    r := Saved(s);
  }

  /** Python truthiness of a JSON value. */
  predicate JsonTruthy(v: Json) {
    match v
    case JNull => false
    case JBool(b) => b
    case JInt(i) => i != 0
    case JReal(x) => x != 0.0
    case JString(s) => s != ""
    case JArray(n) => n > 0
    case JObject(n) => n > 0
  }

  datatype FtpUpdate =
    | InvalidFtp
    | FtpUpdated(oldFtp: int, newFtp: int, difference: int, recalculatedActivities: nat)

  /**
   * `update_ftp_and_recalculate`: with a valid `new_ftp`, the athlete's row (created with that
   * FTP when absent) takes the new FTP; when `recalculate_recent` is truthy, the custom metrics
   * of the given recent activities are deleted and computed afresh with the new FTP.
   */
  method UpdateFtpAndRecalculate(db: Store, athleteId: int, data: map<string, Json>, now: int, recent: seq<int>)
    returns (r: FtpUpdate)
    requires db.Valid()
    requires forall i, j :: 0 <= i < j < |recent| ==> recent[i] != recent[j]
    requires forall id :: id in recent ==> id in db.activities && db.activities[id].athleteId == athleteId
    modifies db, db.settings, db.settings.rows.Values
    ensures db.Valid()
    ensures db.activities == old(db.activities) && db.stravaMetrics == old(db.stravaMetrics)
    ensures db.stravaIndex == old(db.stravaIndex) && db.nextActivityId == old(db.nextActivityId)
    ensures ValidFtp(Field(data, "new_ftp")).None? ==>
      && r == InvalidFtp && db.customMetrics == old(db.customMetrics)
      && db.settings.rows == old(db.settings.rows) && unchanged(db.settings.rows.Values)
    ensures forall k :: k in old(db.settings.rows) && k != athleteId ==>
      k in db.settings.rows && db.settings.rows[k] == old(db.settings.rows[k]) && unchanged(db.settings.rows[k])
    ensures ValidFtp(Field(data, "new_ftp")).Some? ==>
      var newFtp := ValidFtp(Field(data, "new_ftp")).value;
      && r.FtpUpdated? && r.newFtp == newFtp && r.difference == newFtp - r.oldFtp
      && athleteId in db.settings.rows && db.settings.rows[athleteId].currentFtp == newFtp
      && db.settings.rows[athleteId].updatedAt == now
      && db.settings.rows.Keys == old(db.settings.rows.Keys) + {athleteId}
      && (athleteId !in old(db.settings.rows) ==> r.oldFtp == newFtp && r.difference == 0)
      && (athleteId in old(db.settings.rows) ==> r.oldFtp == old(db.settings.rows[athleteId].currentFtp))
      && FtpOnlyChanged(db.settings, athleteId)
    ensures ValidFtp(Field(data, "new_ftp")).Some? && !JsonTruthy(Field(data, "recalculate_recent")) ==>
      r.recalculatedActivities == 0 && db.customMetrics == old(db.customMetrics)
    ensures ValidFtp(Field(data, "new_ftp")).Some? && JsonTruthy(Field(data, "recalculate_recent")) ==>
      && r.recalculatedActivities == |recent|
      && (forall k :: k in db.customMetrics && k.0 !in recent ==> k in old(db.customMetrics) && db.customMetrics[k] == old(db.customMetrics)[k])
      && (forall k :: k in old(db.customMetrics) && k.0 !in recent ==> k in db.customMetrics)
      && (forall k :: k in db.customMetrics && k.0 in recent ==> k.1 == athleteId)
      && (forall id :: id in recent ==>
            && (id, athleteId) in db.customMetrics
            && db.customMetrics[(id, athleteId)] ==
                 ComputeRecord(old(db.activities)[id], old(db.MetricsOf(id)), athleteId,
                               ValidFtp(Field(data, "new_ftp")).value, now))
  {
    var ftp := ValidFtp(Field(data, "new_ftp"));
    if ftp.None? {
      return InvalidFtp;
    }
    var newFtp := ftp.value;
    var oldFtp := StoreNewFtp(db.settings, athleteId, newFtp, now);
    if !JsonTruthy(Field(data, "recalculate_recent")) {
      return FtpUpdated(oldFtp, newFtp, newFtp - oldFtp, 0);
    }
    var recalculated := RecalculateRecent(db, athleteId, newFtp, now, recent);
    r := FtpUpdated(oldFtp, newFtp, newFtp - oldFtp, recalculated);
  }

  /** The athlete's row, created with the new FTP when absent, takes the new FTP; answers the FTP it had. */
  method StoreNewFtp(table: SettingsTable, athleteId: int, newFtp: int, now: int) returns (oldFtp: int)
    requires table.Valid()
    modifies table, table.rows.Values
    ensures table.Valid()
    ensures forall k :: k in old(table.rows) && k != athleteId ==>
      k in table.rows && table.rows[k] == old(table.rows[k]) && unchanged(table.rows[k])
    ensures FtpOnlyChanged(table, athleteId)
    ensures athleteId in table.rows && table.rows[athleteId].currentFtp == newFtp
    ensures table.rows[athleteId].updatedAt == now
    ensures table.rows.Keys == old(table.rows.Keys) + {athleteId}
    ensures athleteId !in old(table.rows) ==> oldFtp == newFtp
    ensures athleteId in old(table.rows) ==> oldFtp == old(table.rows[athleteId].currentFtp)
  {
    var settings := table.GetOrCreateForAthlete(athleteId, newFtp, now);
    oldFtp := settings.currentFtp;
    settings.currentFtp := newFtp;
    settings.updatedAt := now;
  }

  /**
   * Of the athlete's row, only the FTP and the update time differ from before: an existing row
   * keeps its other columns, a new one has the column defaults.
   */
  twostate predicate FtpOnlyChanged(table: SettingsTable, athleteId: int)
    reads table, table.rows.Values
  {
    && athleteId in table.rows
    && var s := table.rows[athleteId];
    && (athleteId in old(table.rows) ==>
          && s == old(table.rows[athleteId])
          && s.athleteId == old(s.athleteId)
          && s.maxHeartrate == old(s.maxHeartrate) && s.restingHeartrate == old(s.restingHeartrate)
          && s.weight == old(s.weight)
          && s.autoUpdateFtp == old(s.autoUpdateFtp) && s.ftpTestDetection == old(s.ftpTestDetection))
    && (athleteId !in old(table.rows) ==>
          && s.athleteId == athleteId
          && s.maxHeartrate == None && s.restingHeartrate == None && s.weight == None
          && s.autoUpdateFtp && s.ftpTestDetection)
  }

  /** Deletes the recent activities' custom metrics, whichever athlete id they were stored under, and computes each afresh with the new FTP. */
  method RecalculateRecent(db: Store, athleteId: int, newFtp: int, now: int, recent: seq<int>) returns (recalculated: nat)
    requires db.Valid() && newFtp > 0
    requires forall i, j :: 0 <= i < j < |recent| ==> recent[i] != recent[j]
    requires forall id :: id in recent ==> id in db.activities && db.activities[id].athleteId == athleteId
    modifies db
    ensures db.Valid()
    ensures db.activities == old(db.activities) && db.stravaMetrics == old(db.stravaMetrics)
    ensures db.stravaIndex == old(db.stravaIndex) && db.nextActivityId == old(db.nextActivityId)
    ensures recalculated == |recent|
    ensures forall k :: k in db.customMetrics && k.0 !in recent ==> k in old(db.customMetrics) && db.customMetrics[k] == old(db.customMetrics)[k]
    ensures forall k :: k in old(db.customMetrics) && k.0 !in recent ==> k in db.customMetrics
    ensures forall k :: k in db.customMetrics && k.0 in recent ==> k.1 == athleteId
    ensures forall id :: id in recent ==>
      && (id, athleteId) in db.customMetrics
      && db.customMetrics[(id, athleteId)] == ComputeRecord(old(db.activities)[id], old(db.MetricsOf(id)), athleteId, newFtp, now)
  {
    db.customMetrics := map k | k in db.customMetrics && k.0 !in recent :: db.customMetrics[k];
    recalculated := InsertRecent(db, athleteId, newFtp, now, recent);
  }

  /** The recalculation loop: a fresh record for each listed activity, none of which has one yet. */
  method InsertRecent(db: Store, athleteId: int, newFtp: int, now: int, recent: seq<int>) returns (inserted: nat)
    requires db.Valid() && newFtp > 0
    requires forall i, j :: 0 <= i < j < |recent| ==> recent[i] != recent[j]
    requires forall id :: id in recent ==> id in db.activities
    requires forall k :: k in db.customMetrics ==> k.0 !in recent
    modifies db
    ensures db.Valid()
    ensures db.activities == old(db.activities) && db.stravaMetrics == old(db.stravaMetrics)
    ensures db.stravaIndex == old(db.stravaIndex) && db.nextActivityId == old(db.nextActivityId)
    ensures inserted == |recent|
    ensures forall k :: k in old(db.customMetrics) ==> k in db.customMetrics && db.customMetrics[k] == old(db.customMetrics)[k]
    ensures forall k :: k in db.customMetrics && k !in old(db.customMetrics) ==> k.1 == athleteId && k.0 in recent
    ensures forall id :: id in recent ==>
      && (id, athleteId) in db.customMetrics
      && db.customMetrics[(id, athleteId)] == ComputeRecord(old(db.activities)[id], old(db.MetricsOf(id)), athleteId, newFtp, now)
  {
    inserted := 0;
    for i := 0 to |recent|
      invariant db.Valid()
      invariant db.activities == old(db.activities) && db.stravaMetrics == old(db.stravaMetrics)
      invariant db.stravaIndex == old(db.stravaIndex) && db.nextActivityId == old(db.nextActivityId)
      invariant inserted == i
      invariant forall k :: k in old(db.customMetrics) ==> k in db.customMetrics && db.customMetrics[k] == old(db.customMetrics)[k]
      invariant forall k :: k in db.customMetrics && k !in old(db.customMetrics) ==> k.1 == athleteId && k.0 in recent[..i]
      invariant forall j :: 0 <= j < i ==>
        && (recent[j], athleteId) in db.customMetrics
        && db.customMetrics[(recent[j], athleteId)] ==
             ComputeRecord(old(db.activities)[recent[j]], old(db.MetricsOf(recent[j])), athleteId, newFtp, now)
    {
      assert (recent[i], athleteId) !in db.customMetrics by {
        assert recent[i] !in recent[..i];
      }
      var _ := CalculateActivityCustomMetrics(db, recent[i], athleteId, Some(newFtp), now);
      inserted := inserted + 1;
    }
  }
}
