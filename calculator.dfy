/**
 * The custom-calculation service's orchestration: resolving the FTP to use, computing and
 * storing one activity's custom metrics once per (activity, athlete), and the batch over all
 * of an athlete's activities with its calculated / skipped / error counters.
 */
module Calculator {
  import opened Wrappers
  import opened PyNum
  import opened Database
  import opened CustomMetrics
  import opened MetricFormulas
  import StravaMetrics

  /** The FTP a calculation uses: a truthy override, else the stored setting, else the default. */
  function ResolveFtp(override: Option<int>, stored: Option<int>): (ftp: int)
    ensures TruthyInt(override) ==> ftp == override.value
    ensures !TruthyInt(override) ==> ftp == stored.GetOr(DefaultFtp)
  {
    if TruthyInt(override) then override.value
    else if stored.Some? then stored.value
    else DefaultFtp
  }

  /** Passing the resolved FTP back in as the override resolves to the same FTP. */
  lemma ResolveFtpIdempotent(override: Option<int>, stored: Option<int>)
    ensures ResolveFtp(Some(ResolveFtp(override, stored)), stored) == ResolveFtp(override, stored)
  {
  }

  /**
   * The record stored for an activity: TSS and IF only when the vendor reports a truthy
   * normalized power (a missing moving time then reads as 0 hours), the training load equal
   * to the TSS, and the power and distance record estimates.
   */
  function ComputeRecord(
    a: ActivitySummary, m: Option<StravaMetrics.ActivityStravaMetrics>, athleteId: int, ftp: int, now: int)
    : (cm: ActivityCustomMetrics)
    ensures cm.activityId == a.id && cm.athleteId == athleteId && cm.userFtp == ftp
    ensures cm.userWeight == None && cm.calculatedAt == now
    ensures cm.trainingLoad == cm.customTss
    ensures !(m.Some? && Truthy(m.value.weightedAverageWatts)) ==> cm.customTss == None && cm.intensityFactor == None
    ensures m.Some? && Truthy(m.value.weightedAverageWatts) ==>
      && cm.customTss == CustomTss(m.value.weightedAverageWatts, Some(OrZero(a.movingTimeHours)), Some(ftp))
      && cm.intensityFactor == IntensityFactor(m.value.weightedAverageWatts, Some(ftp))
    ensures cm.customTss.Some? ==> cm.intensityFactor.Some?
    ensures cm.power == EstimatePowerRecords(a, m) && cm.distance == DetectDistanceRecords(a)
  {
    var hasNp := m.Some? && Truthy(m.value.weightedAverageWatts);
    var tss := if hasNp then CustomTss(m.value.weightedAverageWatts, Some(OrZero(a.movingTimeHours)), Some(ftp)) else None;
    var intensity := if hasNp then IntensityFactor(m.value.weightedAverageWatts, Some(ftp)) else None;
    ActivityCustomMetrics(
      a.id, athleteId, ftp, None, tss, intensity, tss,
      EstimatePowerRecords(a, m), DetectDistanceRecords(a), now)
  }

  /**
   * Custom metrics for one activity: nothing for an unknown activity; the record already stored
   * for (activity, athlete), unchanged, whatever the FTP; otherwise a new record computed with
   * the resolved FTP and stored.
   */
  method CalculateActivityCustomMetrics(db: Store, activityId: int, athleteId: int, userFtp: Option<int>, now: int)
    returns (r: Option<ActivityCustomMetrics>)
    requires db.Valid()
    modifies db
    ensures db.Valid()
    ensures db.activities == old(db.activities) && db.stravaIndex == old(db.stravaIndex)
    ensures db.nextActivityId == old(db.nextActivityId) && db.stravaMetrics == old(db.stravaMetrics)
    ensures activityId !in old(db.activities) ==> r == None && db.customMetrics == old(db.customMetrics)
    ensures activityId in old(db.activities) && (activityId, athleteId) in old(db.customMetrics) ==>
      r == Some(old(db.customMetrics)[(activityId, athleteId)]) && db.customMetrics == old(db.customMetrics)
    ensures activityId in old(db.activities) && (activityId, athleteId) !in old(db.customMetrics) ==>
      && r == Some(ComputeRecord(old(db.activities)[activityId], old(db.MetricsOf(activityId)), athleteId,
                                 ResolveFtp(userFtp, old(db.StoredFtp(athleteId))), now))
      && db.customMetrics == old(db.customMetrics)[(activityId, athleteId) := r.value]
  {
    if activityId !in db.activities {
      return None;
    }
    var activity := db.activities[activityId];
    var metrics := db.MetricsOf(activityId);
    var ftp := ResolveFtp(userFtp, db.StoredFtp(athleteId));
    if (activityId, athleteId) in db.customMetrics {
      return Some(db.customMetrics[(activityId, athleteId)]);
    }
    var record := ComputeRecord(activity, metrics, athleteId, ftp, now);
    db.customMetrics := db.customMetrics[(activityId, athleteId) := record];
    r := Some(record);
  }

  /** The batch's report. */
  datatype BatchReport = BatchReport(calculated: nat, skipped: nat, errors: nat, totalActivities: nat, userFtp: int)

  /**
   * `ids` is what `filter_by(athlete_id=...).all()` returns: each of the athlete's activities
   * exactly once, in some order.
   */
  ghost predicate ListsActivitiesOf(db: Store, athleteId: int, ids: seq<int>)
    reads db
  {
    && (forall i, j :: 0 <= i < j < |ids| ==> ids[i] != ids[j])
    && (forall id :: id in ids <==> id in db.activities && db.activities[id].athleteId == athleteId)
  }

  /** How many of the listed activities already have a record for the athlete. */
  function CountWithRecord(ids: seq<int>, before: map<(int, int), ActivityCustomMetrics>, athleteId: int): (n: nat)
    ensures n <= |ids|
  {
    if ids == [] then 0
    else CountWithRecord(ids[..|ids| - 1], before, athleteId) + (if (ids[|ids| - 1], athleteId) in before then 1 else 0)
  }

  /** One more listed activity adds one to the count exactly when it already has a record. */
  lemma CountWithRecordStep(ids: seq<int>, i: nat, before: map<(int, int), ActivityCustomMetrics>, athleteId: int)
    requires i < |ids|
    ensures ids[..i + 1] == ids[..i] + [ids[i]]
    ensures CountWithRecord(ids[..i + 1], before, athleteId) ==
      CountWithRecord(ids[..i], before, athleteId) + (if (ids[i], athleteId) in before then 1 else 0)
  {
    assert ids[..i + 1][..i] == ids[..i];
  }

  /** The record the batch computes for activity `id` from the stored tables. */
  function RecordFor(
    activities: map<int, ActivitySummary>, metrics: map<int, StravaMetrics.ActivityStravaMetrics>,
    id: int, athleteId: int, ftp: int, now: int): ActivityCustomMetrics
    requires id in activities
  {
    ComputeRecord(activities[id], if id in metrics then Some(metrics[id]) else None, athleteId, ftp, now)
  }

  /**
   * The custom-metrics table `custom` after the batch has visited the activities `done` of an
   * athlete: the earlier records `before` are kept, each visited activity has a record, and
   * every new record belongs to a visited activity and is the record computed with `ftp`.
   */
  ghost predicate Extends(
    custom: map<(int, int), ActivityCustomMetrics>, before: map<(int, int), ActivityCustomMetrics>,
    activities: map<int, ActivitySummary>, metrics: map<int, StravaMetrics.ActivityStravaMetrics>,
    athleteId: int, done: seq<int>, ftp: int, now: int)
  {
    && (forall k :: k in before ==> k in custom && custom[k] == before[k])
    && (forall id :: id in done ==> (id, athleteId) in custom)
    && (forall k :: k in custom && k !in before ==>
          && k.1 == athleteId && k.0 in done && k.0 in activities
          && custom[k] == RecordFor(activities, metrics, k.0, athleteId, ftp, now))
  }

  /** Visiting an activity that already has a record keeps the table as it is. */
  lemma ExtendsBySkip(
    custom: map<(int, int), ActivityCustomMetrics>, before: map<(int, int), ActivityCustomMetrics>,
    activities: map<int, ActivitySummary>, metrics: map<int, StravaMetrics.ActivityStravaMetrics>,
    athleteId: int, done: seq<int>, ftp: int, now: int, next: int)
    requires Extends(custom, before, activities, metrics, athleteId, done, ftp, now)
    requires (next, athleteId) in custom
    ensures Extends(custom, before, activities, metrics, athleteId, done + [next], ftp, now)
  {
  }

  /** Visiting an activity without a record adds the computed one. */
  lemma ExtendsByInsert(
    custom: map<(int, int), ActivityCustomMetrics>, before: map<(int, int), ActivityCustomMetrics>,
    activities: map<int, ActivitySummary>, metrics: map<int, StravaMetrics.ActivityStravaMetrics>,
    athleteId: int, done: seq<int>, ftp: int, now: int, next: int)
    requires Extends(custom, before, activities, metrics, athleteId, done, ftp, now)
    requires next in activities && (next, athleteId) !in custom
    ensures Extends(
      custom[(next, athleteId) := RecordFor(activities, metrics, next, athleteId, ftp, now)],
      before, activities, metrics, athleteId, done + [next], ftp, now)
  {
  }

  /**
   * Computes the custom metrics of every listed activity of the athlete. Without a truthy FTP
   * the athlete's settings row is fetched, or created with the default FTP, and its FTP used.
   * Each activity counts once: skipped when it already had a record, calculated otherwise;
   * afterwards every activity of the athlete has a record and no earlier record changed.
   */
  method CalculateAllAthleteActivities(db: Store, athleteId: int, userFtp: Option<int>, now: int, activities: seq<int>)
    returns (report: BatchReport)
    requires db.Valid() && ListsActivitiesOf(db, athleteId, activities)
    modifies db, db.settings
    ensures db.Valid()
    ensures db.activities == old(db.activities) && db.stravaIndex == old(db.stravaIndex)
    ensures db.nextActivityId == old(db.nextActivityId) && db.stravaMetrics == old(db.stravaMetrics)
    ensures report.userFtp == ResolveFtp(userFtp, old(db.StoredFtp(athleteId)))
    ensures TruthyInt(userFtp) ==> db.settings.rows == old(db.settings.rows)
    ensures !TruthyInt(userFtp) ==> athleteId in db.settings.rows
    ensures !TruthyInt(userFtp) && athleteId in old(db.settings.rows) ==> db.settings.rows == old(db.settings.rows)
    ensures !TruthyInt(userFtp) && athleteId !in old(db.settings.rows) ==>
      && db.settings.rows == old(db.settings.rows)[athleteId := db.settings.rows[athleteId]]
      && db.settings.rows[athleteId].currentFtp == DefaultFtp
    ensures report.totalActivities == |activities|
    ensures report.calculated + report.skipped + report.errors == report.totalActivities
    ensures report.errors == 0
    ensures report.skipped == CountWithRecord(activities, old(db.customMetrics), athleteId)
    ensures Extends(db.customMetrics, old(db.customMetrics), db.activities, db.stravaMetrics,
                    athleteId, activities, report.userFtp, now)
    ensures forall id :: id in db.ActivityIdsOf(athleteId) ==> (id, athleteId) in db.customMetrics
  {
    var ftp: int;
    if TruthyInt(userFtp) {
      ftp := userFtp.value;
    } else {
      var s := db.settings.GetOrCreateForAthlete(athleteId, DefaultFtp, now);
      ftp := s.currentFtp;
    }
    assert ftp == ResolveFtp(userFtp, old(db.StoredFtp(athleteId)));
    var calculated, skipped, errors := CalculateEach(db, athleteId, ftp, now, activities);
    report := BatchReport(calculated, skipped, errors, |activities|, ftp);
  }

  /** The batch loop over the athlete's activities, with the FTP already resolved. */
  method CalculateEach(db: Store, athleteId: int, ftp: int, now: int, activities: seq<int>)
    returns (calculated: nat, skipped: nat, errors: nat)
    requires db.Valid() && ListsActivitiesOf(db, athleteId, activities)
    requires ResolveFtp(Some(ftp), db.StoredFtp(athleteId)) == ftp
    modifies db
    ensures db.Valid()
    ensures db.activities == old(db.activities) && db.stravaIndex == old(db.stravaIndex)
    ensures db.nextActivityId == old(db.nextActivityId) && db.stravaMetrics == old(db.stravaMetrics)
    ensures calculated + skipped + errors == |activities| && errors == 0
    ensures skipped == CountWithRecord(activities, old(db.customMetrics), athleteId)
    ensures Extends(db.customMetrics, old(db.customMetrics), db.activities, db.stravaMetrics,
                    athleteId, activities, ftp, now)
  {
    ghost var before := db.customMetrics;
    calculated, skipped, errors := 0, 0, 0;
    for i := 0 to |activities|
      invariant db.Valid()
      invariant db.activities == old(db.activities) && db.stravaIndex == old(db.stravaIndex)
      invariant db.nextActivityId == old(db.nextActivityId) && db.stravaMetrics == old(db.stravaMetrics)
      invariant skipped == CountWithRecord(activities[..i], before, athleteId)
      invariant calculated + skipped == i && errors == 0
      invariant Extends(db.customMetrics, before, db.activities, db.stravaMetrics, athleteId, activities[..i], ftp, now)
    {
      var next := activities[i];
      assert next in db.activities && next !in activities[..i];
      CountWithRecordStep(activities, i, before, athleteId);
      var wasSkipped, result := Visit(db, athleteId, ftp, now, before, activities[..i], next);
      if wasSkipped {
        skipped := skipped + 1;
      } else {
        calculated := calculated + if result.Some? then 1 else 0;
        errors := errors + if result.Some? then 0 else 1;
      }
    }
    assert activities[..|activities|] == activities;
  }

  /**
   * One pass of the batch loop: an activity that already has a record is skipped, any other is
   * calculated with the resolved FTP.
   */
  method Visit(
    db: Store, athleteId: int, ftp: int, now: int,
    ghost before: map<(int, int), ActivityCustomMetrics>, ghost done: seq<int>, next: int)
    returns (wasSkipped: bool, result: Option<ActivityCustomMetrics>)
    requires db.Valid() && next in db.activities && next !in done
    requires ResolveFtp(Some(ftp), db.StoredFtp(athleteId)) == ftp
    requires Extends(db.customMetrics, before, db.activities, db.stravaMetrics, athleteId, done, ftp, now)
    modifies db
    ensures db.Valid()
    ensures db.activities == old(db.activities) && db.stravaIndex == old(db.stravaIndex)
    ensures db.nextActivityId == old(db.nextActivityId) && db.stravaMetrics == old(db.stravaMetrics)
    ensures wasSkipped <==> (next, athleteId) in before
    ensures !wasSkipped ==> result.Some?
    ensures Extends(db.customMetrics, before, db.activities, db.stravaMetrics, athleteId, done + [next], ftp, now)
  {
    if (next, athleteId) in db.customMetrics {
      ExtendsBySkip(db.customMetrics, before, db.activities, db.stravaMetrics, athleteId, done, ftp, now, next);
      return true, None;
    }
    ExtendsByInsert(db.customMetrics, before, db.activities, db.stravaMetrics, athleteId, done, ftp, now, next);
    result := CalculateActivityCustomMetrics(db, next, athleteId, Some(ftp), now);
    wasSkipped := false;
  }
}
