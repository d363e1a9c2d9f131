/**
 * The vendor API client's request budget (at most 95 requests per 15-minute window) and the
 * import of one vendor activity into the activity table.
 */
module StravaService {
  import opened Wrappers
  import opened PyNum
  import opened Database

  /** Length of the vendor's rate-limit window, in seconds. */
  const Window: real := 900.0
  /** Requests allowed in one window before waiting. */
  const Budget: int := 95

  /** The client's counters; the clock readings are passed in as seconds. */
  class StravaService {
    var requestsCount: int
    var lastRequestTime: real

    constructor (now: real)
      ensures requestsCount == 0 && lastRequestTime == now
    {
      requestsCount := 0;
      lastRequestTime := now;
    }

    /**
     * Called before each request at clock reading `now`. Past the window the count restarts;
     * inside it, a spent budget means sleeping until the window ends (the clock then reads
     * `afterSleep`) and restarting. Either way this request is then counted. Returns how
     * long it slept.
     */
    method RateLimitWait(now: real, afterSleep: real) returns (waitTime: real)
      modifies this
      ensures now - old(lastRequestTime) >= Window ==>
        waitTime == 0.0 && requestsCount == 1 && lastRequestTime == now
      ensures now - old(lastRequestTime) < Window && old(requestsCount) >= Budget ==>
        && waitTime == Window - (now - old(lastRequestTime))
        && requestsCount == 1 && lastRequestTime == afterSleep
      ensures now - old(lastRequestTime) < Window && old(requestsCount) < Budget ==>
        waitTime == 0.0 && requestsCount == old(requestsCount) + 1 && lastRequestTime == old(lastRequestTime)
      ensures 0 <= old(requestsCount) <= Budget ==> 1 <= requestsCount <= Budget
    {
      waitTime := 0.0;
      var currentTime := now;
      if currentTime - lastRequestTime < Window {
        if requestsCount >= Budget {
          waitTime := Window - (currentTime - lastRequestTime);
          requestsCount := 0;
          lastRequestTime := afterSleep;
        }
      } else {
        requestsCount := 0;
        lastRequestTime := currentTime;
      }
      requestsCount := requestsCount + 1;
    }
  }

  /**
   * The fields of a vendor activity payload the import reads; an absent number reads as 0 and
   * an absent name or type as the empty text. `startDate` is the UTC start, `startDateLocal`
   * the athlete's local one.
   */
  datatype StravaActivity = StravaActivity(
    id: int,
    name: string,
    activityType: ActivityType,
    sportType: string,
    startDate: LocalDateTime,
    startDateLocal: LocalDateTime,
    distanceMeters: real,
    movingTime: int,
    elapsedTime: int,
    averageSpeed: Option<real>,
    maxSpeed: Option<real>,
    totalElevationGain: Option<real>,
    averageHeartrate: Option<real>,
    maxHeartrate: Option<int>,
    calories: Option<real>)

  const DayNames: seq<string> := ["Lundi", "Mardi", "Mercredi", "Jeudi", "Vendredi", "Samedi", "Dimanche"]
  const MonthNames: seq<string> :=
    ["Janvier", "Février", "Mars", "Avril", "Mai", "Juin",
     "Juillet", "Août", "Septembre", "Octobre", "Novembre", "Décembre"]

  /**
   * The row stored for a payload: the payload's names, type and start times, the distance in
   * km as the two-decimal `distance_km` column holds it, the durations in hours to two decimals, the calendar fields of the local start and the
   * optional measurements as given.
   */
  function DeriveActivity(raw: StravaActivity, athleteId: int, id: int): (a: ActivitySummary)
    ensures a.id == id && a.stravaId == raw.id && a.athleteId == athleteId
    ensures a.name == raw.name && a.activityType == raw.activityType && a.sportType == raw.sportType
    ensures a.startDate == raw.startDate && a.startDateLocal == raw.startDateLocal
    ensures a.distanceKm == Round(raw.distanceMeters / 1000.0, 2)
    ensures a.movingTimeSeconds == raw.movingTime && a.elapsedTimeSeconds == raw.elapsedTime
    ensures a.movingTimeHours == Some(Round(raw.movingTime as real / 3600.0, 2))
    ensures a.elapsedTimeHours == Some(Round(raw.elapsedTime as real / 3600.0, 2))
    ensures a.year == raw.startDateLocal.year && a.month == raw.startDateLocal.month && a.day == raw.startDateLocal.day
    ensures a.week == raw.startDateLocal.isoWeek && a.dayOfWeek == raw.startDateLocal.weekday
    ensures a.dayName == DayNames[raw.startDateLocal.weekday]
    ensures a.monthName == MonthNames[raw.startDateLocal.month - 1]
    ensures a.averageSpeed == raw.averageSpeed && a.maxSpeed == raw.maxSpeed
    ensures a.totalElevationGain == raw.totalElevationGain
    ensures a.averageHeartrate == raw.averageHeartrate && a.maxHeartrate == raw.maxHeartrate
    ensures a.calories == raw.calories
  {
    var d := raw.startDateLocal;
    ActivitySummary(
      id, raw.id, athleteId, raw.name, raw.activityType, raw.sportType, raw.startDate, d,
      Round(raw.distanceMeters / 1000.0, 2), raw.movingTime, raw.elapsedTime,
      Some(Round(raw.movingTime as real / 3600.0, 2)), Some(Round(raw.elapsedTime as real / 3600.0, 2)),
      d.year, d.month, d.day, d.isoWeek, d.weekday, DayNames[d.weekday], MonthNames[d.month - 1],
      raw.averageSpeed, raw.maxSpeed, raw.totalElevationGain, raw.averageHeartrate, raw.maxHeartrate, raw.calories)
  }

  /** Distinct weekdays get distinct day names, so the stored name identifies the weekday. */
  lemma DayNamesDistinct(i: Weekday, j: Weekday)
    requires i != j
    ensures DayNames[i] != DayNames[j]
  {
    assert DayNames[i][0] != DayNames[j][0] || DayNames[i][1] != DayNames[j][1] || |DayNames[i]| != |DayNames[j]|;
  }

  /**
   * Imports one payload: a vendor id already in the table inserts nothing and answers false;
   * otherwise the derived row is added under the next primary key.
   */
  method ProcessActivity(db: Store, raw: StravaActivity, athleteId: int) returns (inserted: bool)
    requires db.Valid()
    modifies db
    ensures db.Valid()
    ensures raw.id in old(db.stravaIndex) ==>
      !inserted && db.activities == old(db.activities) && db.stravaIndex == old(db.stravaIndex)
      && db.nextActivityId == old(db.nextActivityId)
    ensures raw.id !in old(db.stravaIndex) ==>
      && inserted
      && db.activities == old(db.activities)[old(db.nextActivityId) := DeriveActivity(raw, athleteId, old(db.nextActivityId))]
      && db.stravaIndex == old(db.stravaIndex)[raw.id := old(db.nextActivityId)]
      && db.nextActivityId == old(db.nextActivityId) + 1
    ensures db.stravaMetrics == old(db.stravaMetrics) && db.customMetrics == old(db.customMetrics)
  {
    if raw.id in db.stravaIndex {
      return false;
    }
    var id := db.nextActivityId;
    var activity := DeriveActivity(raw, athleteId, id);
    db.activities := db.activities[id := activity];
    db.stravaIndex := db.stravaIndex[raw.id := id];
    db.nextActivityId := id + 1;
    inserted := true;
  }
}
