/**
 * The stored activity summary and the in-memory stand-in for the database: the activity table
 * with its unique vendor-id index, the vendor metrics per activity, the custom metrics keyed by
 * (activity id, athlete id) and the athlete settings table.
 */
module Database {
  import opened Wrappers
  import opened PyNum
  import StravaMetrics
  import CustomMetrics

  type Month = m: int | 1 <= m <= 12 witness 1

  /** `datetime.weekday()`: Monday is 0, Sunday is 6. */
  type Weekday = d: int | 0 <= d <= 6

  /**
   * A local start time, given with the calendar fields the code reads from it: the ISO week
   * (`isocalendar()[1]`) and the Sunday-based week of the year (`strftime('%U')`). Deriving
   * these from a timestamp is calendar arithmetic outside this model.
   */
  datatype LocalDateTime = LocalDateTime(year: int, month: Month, day: int, weekday: Weekday, isoWeek: int, sundayWeek: int)

  /** The `'%Y-W%U'` bucket of a date: the year and its Sunday-based week number. */
  datatype WeekKey = WeekKey(year: int, week: int)

  function WeekKeyOf(d: LocalDateTime): WeekKey {
    WeekKey(d.year, d.sundayWeek)
  }

  /**
   * The order in which `sorted` puts week-key strings: by year, then by week. (The zero-padded
   * text "YYYY-WUU" compares this way for four-digit years.)
   */
  predicate WeekBefore(a: WeekKey, b: WeekKey) {
    a.year < b.year || (a.year == b.year && a.week < b.week)
  }

  /** The vendor's activity type; the power and distance estimators only look at these five. */
  datatype ActivityType = Ride | VirtualRide | EBikeRide | Run | Walk | OtherType(name: string)

  datatype ActivitySummary = ActivitySummary(
    id: int,
    stravaId: int,
    athleteId: int,
    name: string,
    activityType: ActivityType,
    sportType: string,
    startDate: LocalDateTime,
    startDateLocal: LocalDateTime,
    distanceKm: real,
    movingTimeSeconds: int,
    elapsedTimeSeconds: int,
    movingTimeHours: Option<real>,
    elapsedTimeHours: Option<real>,
    year: int,
    month: int,
    day: int,
    week: int,
    dayOfWeek: int,
    dayName: string,
    monthName: string,
    averageSpeed: Option<real>,
    maxSpeed: Option<real>,
    totalElevationGain: Option<real>,
    averageHeartrate: Option<real>,
    maxHeartrate: Option<int>,
    calories: Option<real>)

  class Store {
    /** `activity_summary`, by primary key. */
    var activities: map<int, ActivitySummary>
    /** The unique index on `activity_summary.strava_id`: vendor id to primary key. */
    var stravaIndex: map<int, int>
    /** The next primary key the table hands out. */
    var nextActivityId: int
    /** `activity_strava_metrics`: the first row for each activity. */
    var stravaMetrics: map<int, StravaMetrics.ActivityStravaMetrics>
    /** `activity_custom_metrics`, by (activity id, athlete id). */
    var customMetrics: map<(int, int), CustomMetrics.ActivityCustomMetrics>
    /** `athlete_settings`. */
    const settings: CustomMetrics.SettingsTable

    /** Keys agree with the rows, the vendor-id index is exact, keys are below the next id, and the settings rows sit under their own athlete ids. */
    ghost predicate Valid()
      reads this, settings, settings.rows.Values
    {
      && settings.Valid()
      && (forall id :: id in activities ==> activities[id].id == id && id < nextActivityId)
      && (forall id :: id in activities ==>
            activities[id].stravaId in stravaIndex && stravaIndex[activities[id].stravaId] == id)
      && (forall sid :: sid in stravaIndex ==>
            stravaIndex[sid] in activities && activities[stravaIndex[sid]].stravaId == sid)
      && (forall k :: k in customMetrics ==> customMetrics[k].activityId == k.0 && customMetrics[k].athleteId == k.1)
    }

    constructor ()
      ensures Valid() && fresh(settings)
      ensures activities == map[] && stravaIndex == map[] && stravaMetrics == map[] && customMetrics == map[]
      ensures settings.rows == map[]
    {
      activities := map[];
      stravaIndex := map[];
      nextActivityId := 1;
      stravaMetrics := map[];
      customMetrics := map[];
      settings := new CustomMetrics.SettingsTable();
    }

    /** The ids of an athlete's activities (`filter_by(athlete_id=...)`). */
    function ActivityIdsOf(athleteId: int): set<int>
      reads this
    {
      set id | id in activities && activities[id].athleteId == athleteId
    }

    /** The vendor metrics row of an activity (`filter_by(activity_id=...).first()`), if any. */
    function MetricsOf(activityId: int): Option<StravaMetrics.ActivityStravaMetrics>
      reads this
    {
      if activityId in stravaMetrics then Some(stravaMetrics[activityId]) else None
    }

    /** The FTP in the athlete's settings row, if the athlete has one. */
    function StoredFtp(athleteId: int): Option<int>
      reads settings, settings.rows.Values
    {
      if athleteId in settings.rows then Some(settings.rows[athleteId].currentFtp) else None
    }
  }
}
