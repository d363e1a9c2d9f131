/**
 * The training-load analysis over an athlete's recent (activity, custom metrics) rows: TSS
 * totals, the intensity-zone histogram, TSS per Sunday-based week and the weekly progression
 * in week order.
 */
module LoadAnalysis {
  import opened Wrappers
  import opened PyNum
  import opened Database
  import opened CustomMetrics
  import opened AssocList

  /** One row of the analysis query: an activity joined with its custom metrics. */
  datatype Row = Row(activity: ActivitySummary, metrics: ActivityCustomMetrics)

  // ---- sums over the rows (Python generator expressions) ----

  /** What a row adds to the TSS sums: its TSS when truthy, otherwise nothing. */
  function TssOf(r: Row): real {
    if Truthy(r.metrics.customTss) then r.metrics.customTss.value else 0.0
  }

  function TotalTss(rows: seq<Row>): real {
    if rows == [] then 0.0 else TotalTss(rows[..|rows| - 1]) + TssOf(rows[|rows| - 1])
  }

  /** `max(... for truthy TSS)`, absent when no row has a truthy TSS. */
  function MaxTss(rows: seq<Row>): (m: Option<real>)
    ensures m.None? <==> forall i :: 0 <= i < |rows| ==> !Truthy(rows[i].metrics.customTss)
    ensures m.Some? ==>
      forall i :: 0 <= i < |rows| && Truthy(rows[i].metrics.customTss) ==> rows[i].metrics.customTss.value <= m.value
    ensures m.Some? ==>
      exists i :: 0 <= i < |rows| && Truthy(rows[i].metrics.customTss) && rows[i].metrics.customTss.value == m.value
  {
    if rows == [] then None
    else
      var prefix := rows[..|rows| - 1];
      var last := rows[|rows| - 1];
      var m := MaxTss(prefix);
      assert forall i :: 0 <= i < |prefix| ==> prefix[i] == rows[i];
      if !Truthy(last.metrics.customTss) then m
      else if m.None? || m.value < last.metrics.customTss.value then Some(last.metrics.customTss.value)
      else m
  }

  /** The number of rows with a truthy intensity factor. */
  function IfCount(rows: seq<Row>): (n: nat)
    ensures n <= |rows|
  {
    if rows == [] then 0
    else IfCount(rows[..|rows| - 1]) + if Truthy(rows[|rows| - 1].metrics.intensityFactor) then 1 else 0
  }

  function IfSum(rows: seq<Row>): real {
    if rows == [] then 0.0
    else
      var f := rows[|rows| - 1].metrics.intensityFactor;
      IfSum(rows[..|rows| - 1]) + if Truthy(f) then f.value else 0.0
  }

  /** The mean of the truthy intensity factors, 0 when there are none. */
  function AvgIf(rows: seq<Row>): real {
    if IfCount(rows) == 0 then 0.0 else IfSum(rows) / IfCount(rows) as real
  }

  // ---- intensity zones ----

  /** The `zones` dict: a counter per intensity zone. */
  datatype ZoneCounts = ZoneCounts(recovery: nat, endurance: nat, tempo: nat, threshold: nat, thresholdPlus: nat) {
    function Of(z: Zone): nat {
      match z
      case Recovery => recovery
      case Endurance => endurance
      case Tempo => tempo
      case Threshold => threshold
      case ThresholdPlus => thresholdPlus
    }

    /** `zones[z] += 1`. */
    function Bump(z: Zone): (c: ZoneCounts)
      ensures c.Of(z) == Of(z) + 1
      ensures forall y :: y != z ==> c.Of(y) == Of(y)
    {
      match z
      case Recovery => this.(recovery := recovery + 1)
      case Endurance => this.(endurance := endurance + 1)
      case Tempo => this.(tempo := tempo + 1)
      case Threshold => this.(threshold := threshold + 1)
      case ThresholdPlus => this.(thresholdPlus := thresholdPlus + 1)
    }

    /** `zones[z] += n`. */
    function Add(z: Zone, n: nat): (c: ZoneCounts)
      ensures c.Of(z) == Of(z) + n
      ensures forall y :: y != z ==> c.Of(y) == Of(y)
      ensures c.Total() == Total() + n
    {
      match z
      case Recovery => this.(recovery := recovery + n)
      case Endurance => this.(endurance := endurance + n)
      case Tempo => this.(tempo := tempo + n)
      case Threshold => this.(threshold := threshold + n)
      case ThresholdPlus => this.(thresholdPlus := thresholdPlus + n)
    }

    function Total(): nat {
      recovery + endurance + tempo + threshold + thresholdPlus
    }
  }

  const NoZones := ZoneCounts(0, 0, 0, 0, 0)

  /** Each row with a truthy intensity factor counted in the zone of that factor. */
  function ZoneHistogram(rows: seq<Row>): ZoneCounts {
    if rows == [] then NoZones
    else
      var h := ZoneHistogram(rows[..|rows| - 1]);
      var f := rows[|rows| - 1].metrics.intensityFactor;
      if Truthy(f) then h.Bump(ZoneOf(f.value)) else h
  }

  /** The zone counts add up to the number of rows with a truthy intensity factor. */
  lemma {:induction false} ZoneHistogramTotal(rows: seq<Row>)
    ensures ZoneHistogram(rows).Total() == IfCount(rows)
    decreases |rows|
  {
    if rows != [] {
      ZoneHistogramTotal(rows[..|rows| - 1]);
    }
  }

  /** The number of rows whose truthy intensity factor falls in zone `z`. */
  function RowsInZone(rows: seq<Row>, z: Zone): nat {
    if rows == [] then 0
    else
      var f := rows[|rows| - 1].metrics.intensityFactor;
      RowsInZone(rows[..|rows| - 1], z) + if Truthy(f) && ZoneOf(f.value) == z then 1 else 0
  }

  /** Each zone's counter counts exactly the rows whose intensity factor lies in that zone. */
  lemma {:induction false} ZoneHistogramOf(rows: seq<Row>, z: Zone)
    ensures ZoneHistogram(rows).Of(z) == RowsInZone(rows, z)
    decreases |rows|
  {
    if rows != [] {
      ZoneHistogramOf(rows[..|rows| - 1], z);
    }
  }

  // ---- TSS per week ----

  function Id(x: real): real {
    x
  }

  /** The `weekly_tss` dict: each truthy TSS added to the bucket of its `'%Y-W%U'` week. */
  function WeeklyTss(rows: seq<Row>): seq<(WeekKey, real)> {
    if rows == [] then []
    else
      var w := WeeklyTss(rows[..|rows| - 1]);
      var r := rows[|rows| - 1];
      if Truthy(r.metrics.customTss) then
        var k := WeekKeyOf(r.activity.startDateLocal);
        Put(w, k, Get(w, k, 0.0) + r.metrics.customTss.value)
      else w
  }

  /** The TSS of the rows that fall in week `k`. */
  function TssInWeek(rows: seq<Row>, k: WeekKey): real {
    if rows == [] then 0.0
    else
      var r := rows[|rows| - 1];
      TssInWeek(rows[..|rows| - 1], k) + if WeekKeyOf(r.activity.startDateLocal) == k then TssOf(r) else 0.0
  }

  /** Whether some row of week `k` has a truthy TSS. */
  predicate HasTssInWeek(rows: seq<Row>, k: WeekKey) {
    rows != [] &&
    var r := rows[|rows| - 1];
    (HasTssInWeek(rows[..|rows| - 1], k) || (WeekKeyOf(r.activity.startDateLocal) == k && Truthy(r.metrics.customTss)))
  }

  lemma {:induction false} WeeklyTssDistinct(rows: seq<Row>)
    ensures DistinctKeys(WeeklyTss(rows))
    decreases |rows|
  {
    if rows != [] {
      WeeklyTssDistinct(rows[..|rows| - 1]);
      var w := WeeklyTss(rows[..|rows| - 1]);
      var r := rows[|rows| - 1];
      if Truthy(r.metrics.customTss) {
        var k := WeekKeyOf(r.activity.startDateLocal);
        PutDistinct(w, k, Get(w, k, 0.0) + r.metrics.customTss.value);
      }
    }
  }

  /**
   * The buckets are exactly the weeks with a truthy TSS, and each holds the TSS of its
   * week's rows.
   */
  lemma {:induction false} WeeklyTssLookup(rows: seq<Row>, k: WeekKey)
    ensures 0 <= IndexOf(WeeklyTss(rows), k) <==> HasTssInWeek(rows, k)
    ensures Get(WeeklyTss(rows), k, 0.0) == TssInWeek(rows, k)
    decreases |rows|
  {
    if rows != [] {
      WeeklyTssLookup(rows[..|rows| - 1], k);
      var w := WeeklyTss(rows[..|rows| - 1]);
      var r := rows[|rows| - 1];
      if Truthy(r.metrics.customTss) {
        var key := WeekKeyOf(r.activity.startDateLocal);
        var v := Get(w, key, 0.0) + r.metrics.customTss.value;
        PutKeys(w, key, v, k);
        PutGet(w, key, v, k, 0.0);
      }
    }
  }

  /** The weekly buckets add up to the total TSS. */
  lemma {:induction false} WeeklySumIsTotal(rows: seq<Row>)
    ensures SumOf(WeeklyTss(rows), Id) == TotalTss(rows)
    decreases |rows|
  {
    if rows != [] {
      WeeklySumIsTotal(rows[..|rows| - 1]);
      var w := WeeklyTss(rows[..|rows| - 1]);
      var r := rows[|rows| - 1];
      if Truthy(r.metrics.customTss) {
        var k := WeekKeyOf(r.activity.startDateLocal);
        SumOfPut(w, k, Get(w, k, 0.0) + r.metrics.customTss.value, Id);
      }
    }
  }

  // ---- weekly progression ----

  /** Week keys in the order `sorted` gives them. */
  predicate WeeksAscending(l: seq<(WeekKey, real)>) {
    forall i, j :: 0 <= i < j < |l| ==> !WeekBefore(l[j].0, l[i].0)
  }

  function InsertWeek(x: (WeekKey, real), s: seq<(WeekKey, real)>): seq<(WeekKey, real)> {
    if s == [] then [x]
    else if WeekBefore(s[0].0, x.0) then [s[0]] + InsertWeek(x, s[1..])
    else [x] + s
  }

  /** `sorted(weekly_tss.items())`, as an insertion sort on the week key. */
  function SortWeeks(l: seq<(WeekKey, real)>): seq<(WeekKey, real)> {
    if l == [] then [] else InsertWeek(l[0], SortWeeks(l[1..]))
  }

  lemma {:induction false} InsertWeekSorted(x: (WeekKey, real), s: seq<(WeekKey, real)>)
    requires WeeksAscending(s)
    ensures WeeksAscending(InsertWeek(x, s))
    ensures multiset(InsertWeek(x, s)) == multiset(s) + multiset{x}
    decreases |s|
  {
    if s == [] || !WeekBefore(s[0].0, x.0) {
      WeekInFront(x, s);
    } else {
      InsertWeekSorted(x, s[1..]);
      WeekBehind(x, s, InsertWeek(x, s[1..]));
    }
  }

  lemma WeekInFront(x: (WeekKey, real), s: seq<(WeekKey, real)>)
    requires WeeksAscending(s)
    requires s == [] || !WeekBefore(s[0].0, x.0)
    ensures WeeksAscending([x] + s)
  {
    var r := [x] + s;
    forall i, j | 0 <= i < j < |r|
      ensures !WeekBefore(r[j].0, r[i].0)
    {
      if i > 0 {
        assert r[i] == s[i - 1] && r[j] == s[j - 1];
      } else {
        assert r[j] == s[j - 1];
        if j > 1 {
          assert !WeekBefore(s[j - 1].0, s[0].0);
        }
      }
    }
  }

  lemma WeekBehind(x: (WeekKey, real), s: seq<(WeekKey, real)>, t: seq<(WeekKey, real)>)
    requires s != [] && WeekBefore(s[0].0, x.0)
    requires WeeksAscending(s) && WeeksAscending(t)
    requires multiset(t) == multiset(s[1..]) + multiset{x}
    ensures WeeksAscending([s[0]] + t)
    ensures multiset([s[0]] + t) == multiset(s) + multiset{x}
  {
    assert s == [s[0]] + s[1..];
    forall j | 0 <= j < |t|
      ensures !WeekBefore(t[j].0, s[0].0)
    {
      assert t[j] in multiset(t);
      if t[j] != x {
        assert t[j] in multiset(s[1..]);
        var k :| 0 <= k < |s[1..]| && s[1..][k] == t[j];
        assert s[k + 1] == t[j];
      }
    }
    var r := [s[0]] + t;
    forall i, j | 0 <= i < j < |r|
      ensures !WeekBefore(r[j].0, r[i].0)
    {
      if i > 0 {
        assert r[i] == t[i - 1] && r[j] == t[j - 1];
      } else {
        assert r[j] == t[j - 1];
      }
    }
  }

  lemma {:induction false} SortWeeksCorrect(l: seq<(WeekKey, real)>)
    ensures WeeksAscending(SortWeeks(l))
    ensures multiset(SortWeeks(l)) == multiset(l)
    decreases |l|
  {
    if l != [] {
      SortWeeksCorrect(l[1..]);
      InsertWeekSorted(l[0], SortWeeks(l[1..]));
      assert l == [l[0]] + l[1..];
    }
  }

  /** Each week's TSS rounded to one decimal, in the same order. */
  function RoundedWeeks(l: seq<(WeekKey, real)>): (r: seq<(WeekKey, real)>)
    ensures |r| == |l|
    ensures forall i :: 0 <= i < |l| ==> r[i] == (l[i].0, Round(l[i].1, 1))
  {
    seq(|l|, i requires 0 <= i < |l| => (l[i].0, Round(l[i].1, 1)))
  }

  // ---- the analysis ----

  datatype ZonePercentages = ZonePercentages(
    recovery: real, endurance: real, tempo: real, threshold: real, thresholdPlus: real)

  /** `round(count / len(activities) * 100, 1)`. */
  function ZoneShare(count: nat, total: nat): (p: real)
    requires count <= total && total > 0
    ensures 0.0 <= p <= 100.0
    ensures var exact := count as real / total as real * 100.0; exact - 0.05 < p <= exact + 0.05
  {
    PercentWithin(count, total);
    RoundTenthClose(count as real / total as real * 100.0);
    Round(count as real / total as real * 100.0, 1)
  }

  datatype Analysis = Analysis(
    periodDays: int,
    totalActivities: nat,
    totalTss: real,
    avgTssPerActivity: real,
    maxTssSingle: real,
    avgWeeklyTss: real,
    avgIntensityFactor: real,
    zonesCount: ZoneCounts,
    zonesPercentage: ZonePercentages,
    weeklyProgression: seq<(WeekKey, real)>)

  /** The zone histogram loop of the analysis. */
  method CountZones(rows: seq<Row>) returns (zones: ZoneCounts)
    ensures zones == ZoneHistogram(rows)
  {
    zones := NoZones;
    for i := 0 to |rows|
      invariant zones == ZoneHistogram(rows[..i])
    {
      assert rows[..i + 1][..i] == rows[..i];
      var f := rows[i].metrics.intensityFactor;
      if Truthy(f) {
        zones := zones.Bump(ZoneOf(f.value));
      }
    }
    assert rows[..|rows|] == rows;
  }

  /** Rounding the sorted weeks keeps them in ascending order. */
  lemma ProgressionAscending(weekly: seq<(WeekKey, real)>)
    ensures WeeksAscending(RoundedWeeks(SortWeeks(weekly)))
  {
    var sorted := SortWeeks(weekly);
    SortWeeksCorrect(weekly);
    var progression := RoundedWeeks(sorted);
    assert forall i :: 0 <= i < |sorted| ==> progression[i].0 == sorted[i].0;
  }

  /** The weekly TSS loop of the analysis. */
  method SumWeeks(rows: seq<Row>) returns (weekly: seq<(WeekKey, real)>)
    ensures weekly == WeeklyTss(rows)
  {
    weekly := [];
    for i := 0 to |rows|
      invariant weekly == WeeklyTss(rows[..i])
    {
      assert rows[..i + 1][..i] == rows[..i];
      var cm := rows[i].metrics;
      if Truthy(cm.customTss) {
        var key := WeekKeyOf(rows[i].activity.startDateLocal);
        weekly := Put(weekly, key, Get(weekly, key, 0.0) + cm.customTss.value);
      }
    }
    assert rows[..|rows|] == rows;
  }

  /**
   * The analysis of the given rows (the athlete's activities since the cutoff): nothing when
   * there are none. Averages per activity and zone shares divide by all rows; the weekly
   * average divides the total over the weeks that have a truthy TSS.
   */
  method GetTrainingLoadAnalysis(rows: seq<Row>, days: int) returns (a: Option<Analysis>)
    ensures a.None? <==> rows == []
    ensures a.Some? ==>
      && a.value.periodDays == days && a.value.totalActivities == |rows|
      && a.value.totalTss == Round(TotalTss(rows), 1)
      && a.value.avgTssPerActivity == Round(TotalTss(rows) / |rows| as real, 1)
      && a.value.maxTssSingle == Round(MaxTss(rows).GetOr(0.0), 1)
      && a.value.avgIntensityFactor == Round(AvgIf(rows), 3)
    ensures a.Some? ==>
      a.value.avgWeeklyTss ==
        if WeeklyTss(rows) == [] then 0.0 else Round(TotalTss(rows) / |WeeklyTss(rows)| as real, 1)
    ensures a.Some? ==>
      && a.value.zonesCount == ZoneHistogram(rows)
      && a.value.zonesCount.Total() == IfCount(rows)
    ensures a.Some? ==>
      var z := a.value.zonesCount;
      a.value.zonesPercentage == ZonePercentages(
        ZoneShare(z.recovery, |rows|), ZoneShare(z.endurance, |rows|), ZoneShare(z.tempo, |rows|),
        ZoneShare(z.threshold, |rows|), ZoneShare(z.thresholdPlus, |rows|))
    ensures a.Some? ==>
      && a.value.weeklyProgression == RoundedWeeks(SortWeeks(WeeklyTss(rows)))
      && WeeksAscending(a.value.weeklyProgression)
  {
    if rows == [] {
      return None;
    }
    var totalTss := TotalTss(rows);
    var avgTss := totalTss / |rows| as real;
    var maxTss := MaxTss(rows).GetOr(0.0);
    var avgIf := AvgIf(rows);

    var zones := CountZones(rows);
    ZoneHistogramTotal(rows);
    var weekly := SumWeeks(rows);
    WeeklySumIsTotal(rows);
    var avgWeekly := if weekly == [] then 0.0 else Round(SumOf(weekly, Id) / |weekly| as real, 1);

    var n := |rows|;
    var shares := ZonePercentages(
      ZoneShare(zones.recovery, n), ZoneShare(zones.endurance, n), ZoneShare(zones.tempo, n),
      ZoneShare(zones.threshold, n), ZoneShare(zones.thresholdPlus, n));
    var progression := RoundedWeeks(SortWeeks(weekly));
    ProgressionAscending(weekly);
    a := Some(Analysis(
      days, n, Round(totalTss, 1), Round(avgTss, 1), Round(maxTss, 1), avgWeekly, Round(avgIf, 3),
      zones, shares, progression));
  }
}
