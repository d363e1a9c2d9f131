/**
 * Personal records: the summary built from the per-athlete aggregates, the detection of
 * likely FTP tests (20-30 minute rides at a high intensity factor) and the power curve.
 */
module Records {
  import opened Wrappers
  import opened PyNum
  import opened Database
  import opened CustomMetrics
  import opened LoadAnalysis

  /** 95 % of a truthy 20-minute power, or nothing. */
  function EstimatedFtp(best20min: Option<int>): (ftp: Option<int>)
    ensures ftp.Some? <==> TruthyInt(best20min)
    ensures ftp.Some? && best20min.value > 0 ==> 0 <= ftp.value <= best20min.value
  {
    if TruthyInt(best20min) then Some(FtpFrom20Min(best20min.value)) else None
  }

  // ---- records summary ----

  /**
   * The one row of the aggregate query over the athlete's custom metrics: maxima of the power
   * records, minima of the non-zero distance times, TSS and IF averages and the row count.
   */
  datatype Aggregates = Aggregates(
    best1minPower: Option<int>, best5minPower: Option<int>, best20minPower: Option<int>,
    best1kmTime: Option<int>, best5kmTime: Option<int>, best10kmTime: Option<int>,
    bestHalfMarathonTime: Option<int>, bestMarathonTime: Option<int>,
    avgTss: Option<real>, maxTss: Option<real>, avgIf: Option<real>,
    totalActivities: nat)

  datatype PowerBests = PowerBests(
    best1min: Option<int>, best5min: Option<int>, best20min: Option<int>, estimatedFtp: Option<int>)
  datatype BestTime = BestTime(timeSeconds: Option<int>, pace: Option<string>)
  datatype DistanceBests = DistanceBests(
    oneKm: BestTime, fiveKm: BestTime, tenKm: BestTime, halfMarathon: BestTime, marathon: BestTime)
  datatype TrainingStats = TrainingStats(
    avgTss: Option<real>, maxTss: Option<real>, avgIntensityFactor: Option<real>, totalActivitiesAnalyzed: nat)
  datatype RecordsSummary = RecordsSummary(power: PowerBests, distance: DistanceBests, stats: TrainingStats)

  /** A best time with its pace over `km`, the pace present exactly when the time is truthy. */
  function BestTimeOver(time: Option<int>, km: real): (b: BestTime)
    requires km > 0.0
    ensures b.timeSeconds == time
    ensures b.pace.Some? <==> TruthyInt(time)
    ensures b.pace.Some? ==> b.pace == FormatPace(time, km)
  {
    BestTime(time, if TruthyInt(time) then FormatPace(time, km) else None)
  }

  /** `round(float(x), places) if x else None`. */
  function RoundedIfTruthy(o: Option<real>, places: nat): (r: Option<real>)
    ensures r.Some? <==> Truthy(o)
    ensures r.Some? ==> r.value == Round(o.value, places)
  {
    if Truthy(o) then Some(Round(o.value, places)) else None
  }

  /**
   * `get_athlete_records_summary` after its query: nothing when no activity was analysed;
   * otherwise the power bests with the FTP they suggest, the five best times with their paces
   * over 1, 5, 10, 21.1 and 42.2 km, and the TSS / IF statistics rounded to 1, 1 and 3 places.
   */
  function AthleteRecordsSummary(agg: Aggregates): (s: Option<RecordsSummary>)
    ensures s.None? <==> agg.totalActivities == 0
    ensures s.Some? ==>
      && s.value.power == PowerBests(agg.best1minPower, agg.best5minPower, agg.best20minPower, EstimatedFtp(agg.best20minPower))
      && s.value.distance.oneKm == BestTimeOver(agg.best1kmTime, 1.0)
      && s.value.distance.fiveKm == BestTimeOver(agg.best5kmTime, 5.0)
      && s.value.distance.tenKm == BestTimeOver(agg.best10kmTime, 10.0)
      && s.value.distance.halfMarathon == BestTimeOver(agg.bestHalfMarathonTime, 21.1)
      && s.value.distance.marathon == BestTimeOver(agg.bestMarathonTime, 42.2)
      && s.value.stats == TrainingStats(
           RoundedIfTruthy(agg.avgTss, 1), RoundedIfTruthy(agg.maxTss, 1), RoundedIfTruthy(agg.avgIf, 3),
           agg.totalActivities)
  {
    if agg.totalActivities == 0 then None
    else
      Some(RecordsSummary(
        PowerBests(agg.best1minPower, agg.best5minPower, agg.best20minPower, EstimatedFtp(agg.best20minPower)),
        DistanceBests(
          BestTimeOver(agg.best1kmTime, 1.0), BestTimeOver(agg.best5kmTime, 5.0),
          BestTimeOver(agg.best10kmTime, 10.0), BestTimeOver(agg.bestHalfMarathonTime, 21.1),
          BestTimeOver(agg.bestMarathonTime, 42.2)),
        TrainingStats(
          RoundedIfTruthy(agg.avgTss, 1), RoundedIfTruthy(agg.maxTss, 1), RoundedIfTruthy(agg.avgIf, 3),
          agg.totalActivities)))
  }

  /** The marathon pace in the summary reads back as the best time per km, to the second. */
  lemma MarathonPaceMeaning(agg: Aggregates)
    requires agg.totalActivities > 0 && TruthyInt(agg.bestMarathonTime)
    ensures var pace := AthleteRecordsSummary(agg).value.distance.marathon.pace;
      && pace.Some? && ParsePace(pace.value).Some?
      && var (m, s) := ParsePace(pace.value).value;
      && s < 60
      && (m * 60 + s) as real <= agg.bestMarathonTime.value as real / 42.2 < (m * 60 + s + 1) as real
  {
    var pace := AthleteRecordsSummary(agg).value.distance.marathon.pace;
    assert pace == FormatPace(agg.bestMarathonTime, 42.2);
    FormatPaceMeaning(agg.bestMarathonTime, 42.2);
  }

  // ---- FTP tests ----

  /** The query's filters: 20 to 30 minutes of moving time and an intensity factor of at least 0.95. */
  predicate IsFtpTestCandidate(r: Row) {
    && 1200 <= r.activity.movingTimeSeconds <= 1800
    && r.metrics.intensityFactor.Some? && r.metrics.intensityFactor.value >= 0.95
  }

  /** The rows passing the filters, in their original order. */
  function Candidates(rows: seq<Row>): (c: seq<Row>)
    ensures forall r :: r in c ==> IsFtpTestCandidate(r)
    ensures forall i :: 0 <= i < |rows| && IsFtpTestCandidate(rows[i]) ==> rows[i] in c
  {
    if rows == [] then []
    else (if IsFtpTestCandidate(rows[0]) then [rows[0]] else []) + Candidates(rows[1..])
  }

  function IfKey(r: Row): real {
    r.metrics.intensityFactor.GetOr(0.0)
  }

  /** `ORDER BY intensity_factor DESC`. */
  predicate ByIntensityDesc(s: seq<Row>) {
    forall i, j :: 0 <= i < j < |s| ==> IfKey(s[i]) >= IfKey(s[j])
  }

  /** Puts `x` before the first row of no higher intensity, so equal rows keep their order. */
  function InsertByIf(x: Row, s: seq<Row>): seq<Row> {
    if s == [] || IfKey(s[0]) <= IfKey(x) then [x] + s
    else [s[0]] + InsertByIf(x, s[1..])
  }

  function SortByIf(s: seq<Row>): seq<Row> {
    if s == [] then [] else InsertByIf(s[0], SortByIf(s[1..]))
  }

  lemma {:induction false} InsertByIfSorted(x: Row, s: seq<Row>)
    requires ByIntensityDesc(s)
    ensures ByIntensityDesc(InsertByIf(x, s))
    ensures multiset(InsertByIf(x, s)) == multiset(s) + multiset{x}
    decreases |s|
  {
    if s == [] || IfKey(s[0]) <= IfKey(x) {
      InsertInFront(x, s);
    } else {
      InsertByIfSorted(x, s[1..]);
      InsertBehind(x, s, InsertByIf(x, s[1..]));
    }
  }

  /** Putting `x` before rows of no higher intensity keeps the order. */
  lemma InsertInFront(x: Row, s: seq<Row>)
    requires ByIntensityDesc(s)
    requires s == [] || IfKey(s[0]) <= IfKey(x)
    ensures ByIntensityDesc([x] + s)
  {
    var r := [x] + s;
    forall i, j | 0 <= i < j < |r|
      ensures IfKey(r[i]) >= IfKey(r[j])
    {
      if i > 0 {
        assert r[i] == s[i - 1] && r[j] == s[j - 1];
      } else {
        assert r[j] == s[j - 1];
        if j > 1 {
          assert IfKey(s[0]) >= IfKey(s[j - 1]);
        }
      }
    }
  }

  /** The first row stays first when `x` goes into the ordered rest `t` behind it. */
  lemma InsertBehind(x: Row, s: seq<Row>, t: seq<Row>)
    requires s != [] && IfKey(s[0]) > IfKey(x)
    requires ByIntensityDesc(s) && ByIntensityDesc(t)
    requires multiset(t) == multiset(s[1..]) + multiset{x}
    ensures ByIntensityDesc([s[0]] + t)
    ensures multiset([s[0]] + t) == multiset(s) + multiset{x}
  {
    assert s == [s[0]] + s[1..];
    forall j | 0 <= j < |t|
      ensures IfKey(t[j]) <= IfKey(s[0])
    {
      assert t[j] in multiset(t);
      if t[j] != x {
        assert t[j] in multiset(s[1..]);
        var k :| 0 <= k < |s[1..]| && s[1..][k] == t[j];
        assert s[k + 1] == t[j];
      }
    }
    var r := [s[0]] + t;
    forall i, j | 0 <= i < j < |r|
      ensures IfKey(r[i]) >= IfKey(r[j])
    {
      if i > 0 {
        assert r[i] == t[i - 1] && r[j] == t[j - 1];
      } else {
        assert r[j] == t[j - 1];
      }
    }
  }

  /** The sort orders by decreasing intensity factor and keeps exactly the rows it was given. */
  lemma {:induction false} SortByIfCorrect(s: seq<Row>)
    ensures ByIntensityDesc(SortByIf(s))
    ensures multiset(SortByIf(s)) == multiset(s)
    decreases |s|
  {
    if s != [] {
      SortByIfCorrect(s[1..]);
      InsertByIfSorted(s[0], SortByIf(s[1..]));
      assert s == [s[0]] + s[1..];
    }
  }

  /** At most this many tests are reported (`LIMIT 10`). */
  const MaxFtpTests := 10

  /** The reported test rows: the candidates by decreasing intensity, at most ten of them. */
  function PotentialTests(rows: seq<Row>): seq<Row> {
    var sorted := SortByIf(Candidates(rows));
    if |sorted| <= MaxFtpTests then sorted else sorted[..MaxFtpTests]
  }

  datatype FtpTest = FtpTest(
    activityName: string,
    date: LocalDateTime,
    durationMinutes: real,
    intensityFactor: real,
    estimated20minPower: Option<int>,
    estimatedFtp: Option<int>,
    currentFtp: int,
    ftpImprovement: Option<int>)

  /** A reported test: its duration in minutes to one decimal, the FTP its 20-minute power suggests and the gain over the FTP it was computed with. */
  function FtpTestOf(r: Row): (t: FtpTest)
    ensures t.estimatedFtp == EstimatedFtp(r.metrics.power.best20min)
    ensures t.ftpImprovement.Some? <==> TruthyInt(t.estimatedFtp)
    ensures t.ftpImprovement.Some? ==> t.ftpImprovement.value == t.estimatedFtp.value - r.metrics.userFtp
  {
    var cm := r.metrics;
    var estimated := EstimatedFtp(cm.power.best20min);
    FtpTest(
      r.activity.name, r.activity.startDateLocal,
      Round(r.activity.movingTimeSeconds as real / 60.0, 1),
      IfKey(r), cm.power.best20min, estimated, cm.userFtp,
      if TruthyInt(estimated) then Some(estimated.value - cm.userFtp) else None)
  }

  lemma RoundTenthsEnds()
    ensures Round(20.0, 1) == 20.0 && Round(30.0, 1) == 30.0
  {
    assert Scale(1) == 10.0;
    assert (20.0 * 10.0 + 0.5).Floor == 200;
    assert (30.0 * 10.0 + 0.5).Floor == 300;
  }

  /** A candidate row is reported as a test of 20 to 30 minutes at an intensity factor of at least 0.95. */
  lemma CandidateShape(r: Row)
    requires IsFtpTestCandidate(r)
    ensures 20.0 <= FtpTestOf(r).durationMinutes <= 30.0
    ensures FtpTestOf(r).intensityFactor >= 0.95
  {
    RoundTenthsEnds();
    RoundWithin(r.activity.movingTimeSeconds as real / 60.0, 20.0, 30.0, 1);
  }

  /** `detect_ftp_tests` over the athlete's rows since the cutoff: one entry per reported test row. */
  method DetectFtpTests(rows: seq<Row>) returns (tests: seq<FtpTest>)
    ensures |tests| == |PotentialTests(rows)| <= MaxFtpTests
    ensures forall i :: 0 <= i < |tests| ==> tests[i] == FtpTestOf(PotentialTests(rows)[i])
    ensures forall i :: 0 <= i < |tests| ==>
      20.0 <= tests[i].durationMinutes <= 30.0 && tests[i].intensityFactor >= 0.95
    ensures forall i, j :: 0 <= i < j < |tests| ==> tests[i].intensityFactor >= tests[j].intensityFactor
  {
    var potential := PotentialTests(rows);
    SortByIfCorrect(Candidates(rows));
    PotentialTestsAreCandidates(rows);
    tests := [];
    for i := 0 to |potential|
      invariant |tests| == i
      invariant forall m :: 0 <= m < i ==> tests[m] == FtpTestOf(potential[m])
      invariant forall m :: 0 <= m < i ==>
        20.0 <= tests[m].durationMinutes <= 30.0 && tests[m].intensityFactor >= 0.95
    {
      CandidateShape(potential[i]);
      tests := tests + [FtpTestOf(potential[i])];
    }
  }

  /** Every reported row is a candidate, and the reported rows are in decreasing intensity order. */
  lemma PotentialTestsAreCandidates(rows: seq<Row>)
    ensures forall i :: 0 <= i < |PotentialTests(rows)| ==> IsFtpTestCandidate(PotentialTests(rows)[i])
    ensures ByIntensityDesc(PotentialTests(rows))
  {
    var c := Candidates(rows);
    var sorted := SortByIf(c);
    SortByIfCorrect(c);
    forall i | 0 <= i < |sorted|
      ensures IsFtpTestCandidate(sorted[i])
    {
      assert sorted[i] in multiset(c);
    }
  }

  /** A candidate left out of the report means ten tests were reported, none less intense than it. */
  lemma OmittedCandidateIsNoMoreIntense(rows: seq<Row>, r: Row)
    requires r in Candidates(rows) && r !in PotentialTests(rows)
    ensures |PotentialTests(rows)| == MaxFtpTests
    ensures forall i :: 0 <= i < MaxFtpTests ==> IfKey(r) <= IfKey(PotentialTests(rows)[i])
  {
    var c := Candidates(rows);
    var sorted := SortByIf(c);
    SortByIfCorrect(c);
    assert r in multiset(sorted);
    var k :| 0 <= k < |sorted| && sorted[k] == r;
    if |sorted| <= MaxFtpTests {
      assert false;
    } else {
      if k < MaxFtpTests {
        assert false;
      }
      forall i | 0 <= i < MaxFtpTests
        ensures IfKey(r) <= IfKey(PotentialTests(rows)[i])
      {
        assert PotentialTests(rows)[i] == sorted[i];
      }
    }
  }

  // ---- power curve ----

  /** The three record durations of the curve. */
  datatype Duration = OneMinute | FiveMinutes | TwentyMinutes

  function Best(p: PowerRecords, d: Duration): Option<int> {
    match d
    case OneMinute => p.best1min
    case FiveMinutes => p.best5min
    case TwentyMinutes => p.best20min
  }

  /** `max((x for x in values if x), default=0)`. */
  function MaxTruthy(l: seq<PowerRecords>, d: Duration): (m: int)
    ensures forall p :: p in l && TruthyInt(Best(p, d)) ==> Best(p, d).value <= m
    ensures (exists p :: p in l && TruthyInt(Best(p, d))) ==>
      exists p :: p in l && TruthyInt(Best(p, d)) && Best(p, d).value == m
    ensures (forall p :: p in l ==> !TruthyInt(Best(p, d))) ==> m == 0
  {
    if l == [] then 0
    else
      var rest := MaxTruthy(l[1..], d);
      var x := Best(l[0], d);
      assert forall p :: p in l ==> p == l[0] || p in l[1..];
      if !TruthyInt(x) then rest
      else if forall p :: p in l[1..] ==> !TruthyInt(Best(p, d)) then x.value
      else if x.value >= rest then x.value
      else rest
  }

  /** The records of the query: those with a 1-minute power. */
  function WithOneMinute(records: seq<ActivityCustomMetrics>): (l: seq<PowerRecords>)
    ensures forall p :: p in l ==> p.best1min.Some?
    ensures forall i :: 0 <= i < |records| && records[i].power.best1min.Some? ==> records[i].power in l
    ensures l == [] <==> forall i :: 0 <= i < |records| ==> records[i].power.best1min.None?
  {
    if records == [] then []
    else
      (if records[0].power.best1min.Some? then [records[0].power] else []) + WithOneMinute(records[1..])
  }

  datatype CurvePoint = CurvePoint(durationSeconds: int, power: int)
  datatype PowerCurve = PowerCurve(
    points: seq<CurvePoint>, estimatedFtp: Option<int>, peak1min: int, peak5min: int, peak20min: int)

  /**
   * `get_power_curve_data` over the athlete's stored metrics: nothing when no record has a
   * 1-minute power; otherwise the truthy maximum of each duration among those records at 60,
   * 300 and 1200 seconds, and the FTP the 20-minute peak suggests.
   */
  function PowerCurveData(records: seq<ActivityCustomMetrics>): (c: Option<PowerCurve>)
    ensures c.None? <==> forall i :: 0 <= i < |records| ==> records[i].power.best1min.None?
    ensures c.Some? ==>
      c.value.points == [
        CurvePoint(60, c.value.peak1min), CurvePoint(300, c.value.peak5min), CurvePoint(1200, c.value.peak20min)]
    ensures c.Some? ==> forall i, d :: 0 <= i < |records| && records[i].power.best1min.Some? && TruthyInt(Best(records[i].power, d)) ==>
      Best(records[i].power, d).value <= Peak(c.value, d)
    ensures c.Some? ==> c.value.estimatedFtp == EstimatedFtp(Some(c.value.peak20min))
  {
    var l := WithOneMinute(records);
    if l == [] then None
    else
      var b1 := MaxTruthy(l, OneMinute);
      var b5 := MaxTruthy(l, FiveMinutes);
      var b20 := MaxTruthy(l, TwentyMinutes);
      Some(PowerCurve(
        [CurvePoint(60, b1), CurvePoint(300, b5), CurvePoint(1200, b20)],
        EstimatedFtp(Some(b20)), b1, b5, b20))
  }

  function Peak(c: PowerCurve, d: Duration): int {
    match d
    case OneMinute => c.peak1min
    case FiveMinutes => c.peak5min
    case TwentyMinutes => c.peak20min
  }

  /** Each peak is the power of some record with a 1-minute power, unless no such record has one for that duration. */
  lemma PeaksAttained(records: seq<ActivityCustomMetrics>, d: Duration)
    requires PowerCurveData(records).Some?
    requires exists i :: 0 <= i < |records| && records[i].power.best1min.Some? && TruthyInt(Best(records[i].power, d))
    ensures exists i :: 0 <= i < |records| && TruthyInt(Best(records[i].power, d)) && Best(records[i].power, d).value == Peak(PowerCurveData(records).value, d)
  {
    var l := WithOneMinute(records);
    var i :| 0 <= i < |records| && records[i].power.best1min.Some? && TruthyInt(Best(records[i].power, d));
    assert records[i].power in l;
    var p :| p in l && TruthyInt(Best(p, d)) && Best(p, d).value == MaxTruthy(l, d);
    WithOneMinuteFrom(records, p);
  }

  /** A window no one-minute-qualified record has a truthy value for reports the peak 0. */
  lemma PeakDefaultsToZero(records: seq<ActivityCustomMetrics>, d: Duration)
    requires PowerCurveData(records).Some?
    requires forall i :: 0 <= i < |records| && records[i].power.best1min.Some? ==> !TruthyInt(Best(records[i].power, d))
    ensures Peak(PowerCurveData(records).value, d) == 0
  {
    var l := WithOneMinute(records);
    forall p | p in l
      ensures !TruthyInt(Best(p, d))
    {
      WithOneMinuteFrom(records, p);
    }
  }

  lemma {:induction false} WithOneMinuteFrom(records: seq<ActivityCustomMetrics>, p: PowerRecords)
    requires p in WithOneMinute(records)
    ensures exists i :: 0 <= i < |records| && records[i].power == p
    decreases |records|
  {
    if records[0].power != p || records[0].power.best1min.None? {
      if records[0].power.best1min.Some? {
        assert WithOneMinute(records) == [records[0].power] + WithOneMinute(records[1..]);
      } else {
        assert WithOneMinute(records) == WithOneMinute(records[1..]);
      }
      if records[0].power != p {
        WithOneMinuteFrom(records[1..], p);
        var k :| 0 <= k < |records[1..]| && records[1..][k].power == p;
        assert records[k + 1].power == p;
      }
    }
  }
}
