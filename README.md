# Training analytics over vendor activity summaries — a Dafny model

The system imports an athlete's activities from the Strava API and stores one summary row per activity, together with the vendor's metrics for it: suffer score, normalized power, heart rate and flags. On top of these rows it computes its own rule-based training analytics:

- a Training Stress Score (TSS) and Intensity Factor (IF) from the athlete's FTP (functional threshold power);
- estimated 1/5/20-minute power records;
- pace-normalised distance records;
- training-load analysis: sums, an intensity-zone histogram and weekly buckets;
- consistency and day/type patterns;
- FTP-test detection and a power curve;
- a comparison with the vendor's suffer score;
- several threshold ladders that turn numbers into advice.

## What the model keeps

- **Service state.** The stateful parts are classes:
  - `StravaService.StravaService` holds the request budget.
  - `Database.Store` holds the activity table with its unique vendor-id index, the vendor metrics, and the custom metrics keyed by (activity, athlete).
  - `CustomMetrics.SettingsTable` and `CustomMetrics.AthleteSettings` hold the settings table and its rows.
- **Imperative operations.** The operations that insert, update or loop are methods. Each is proved against a specification function of its inputs or of the old state.
- **Pure rules.** Formulas, classifiers and decision tables are functions, with lemmas that relate them: monotonicity, included end points, round trips and sorting.

### How Python is rendered

- Python floats become `real`.
- `int(x)` truncates toward zero (`PyNum.Trunc`).
- `round(x, n)` is rendered as rounding half up at `n` decimals (`PyNum.Round`).
- `//` is floor division.
- Python truthiness of a nullable number is `Wrappers.Truthy`: present and non-zero.
- A dict that a loop fills is an association list in insertion order (`AssocList`).
- A query result is an input sequence of rows.
- The clock is a parameter (`now`).

### Points where the code's behaviour is easy to misread

- **Weeks.** Weekly buckets use `'%Y-W%U'`, which counts Sunday-based weeks.
- **Recommendation rules.** They form two `if/elif` pairs, so at most one rule fires from each pair.
- **Distance records.** The scaled time is truncated: a 10.1 km run in 2460 s records 2435 s for 10 km (`MetricFormulas.DistanceRecordsExample`).
- **Averages over all activities.** The average TSS per activity and the zone percentages divide by the number of every activity in the period, including those without a TSS or IF.
- **FTP validation.** It uses `isinstance(v, int)`, and Python's `bool` is an `int`, so JSON `true` passes validation (`ActivityRoutes.ValidFtp`).
- **Zone query.** The training summary's zone query selects `intensity_factor, count()` with no `GROUP BY`. The model takes the rows it returns as given, each an intensity factor with a count, and sums the counts per zone.
- **Zero suffer score.** The comparison query keeps a suffer score of 0. The per-activity percentage then divides by zero, which the model reports as `DivisionByZero`.

## Model

| member | source | states |
|---|---|---|
| MetricFormulas.CustomTss | api/services/custom_calculations.py:15-35 | TSS is present exactly when NP is truthy, the duration is positive and the FTP is positive; it is then hours·IF²·100 rounded to one decimal |
| MetricFormulas.TssIsIfSquared | api/services/custom_calculations.py:32-33 | the code's `duration·NP·(NP/FTP)/FTP·100` equals hours·IF²·100 |
| MetricFormulas.HourAtFtpScores100 | api/services/custom_calculations.py:15-35 | one hour at exactly FTP scores 100 TSS |
| MetricFormulas.IntensityFactor | api/services/custom_calculations.py:37-43 | IF is present exactly when NP is truthy and FTP is positive, and is NP/FTP to four decimals |
| MetricFormulas.TssDefinedIffIf | api/services/custom_calculations.py:15-43 | for a positive duration, TSS is defined exactly when IF is |
| MetricFormulas.IfAtFtpIsOne | api/services/custom_calculations.py:37-43 | riding at FTP gives IF 1.0 |
| MetricFormulas.Window | api/services/custom_calculations.py:110-115 | a power estimate is kept iff it lies in [100, hi], unchanged |
| MetricFormulas.EstimatePowerRecords | api/services/custom_calculations.py:45-115 | nothing unless a ride type with NP in [50, 600] W and a positive duration; the tier products then filtered by the [100,800], [100,600] and [100,500] windows |
| MetricFormulas.TierEstimates | api/services/custom_calculations.py:93-108 | the three estimates are NP times the duration tier's factors (×1.35/1.15/1.00 at ≥20 min, ×1.20/1.00/0.95 at ≥5 min, ×1.00/0.95/0.85 below), truncated |
| MetricFormulas.TierOrdered | api/services/custom_calculations.py:93-108 | before windowing, the 1-min estimate ≥ the 5-min ≥ the 20-min in every tier |
| MetricFormulas.PowerRecordsOrdered | api/services/custom_calculations.py:93-115 | any two records present are ordered 1-min ≥ 5-min ≥ 20-min |
| MetricFormulas.PowerRecordsExample | api/services/custom_calculations.py:93-115 | a 25-minute ride at 300 W NP records 405, 345 and 300 W |
| MetricFormulas.DetectDistanceRecords | api/services/custom_calculations.py:117-197 | at most one of the five keys is set; none unless a Run/Walk with positive distance and time and a pace in [150, 720] s/km; a key is set iff the distance is in its tolerance band, with the time scaled to the canonical distance |
| MetricFormulas.BucketRecord | api/services/custom_calculations.py:168-197 | for an eligible activity, the bucket chosen matches its tolerance band and carries the scaled time |
| MetricFormulas.NormalisedWithinPaceBand | api/services/custom_calculations.py:145-189 | a scaled record time stays within the pace band times the canonical distance |
| MetricFormulas.DistanceRecordsExample | api/services/custom_calculations.py:179-181 | a 10.1 km run in 2460 s records 2435 s for 10 km and nothing else |
| MetricFormulas.ImplausiblePaceRejected | api/services/custom_calculations.py:145-155 | a 2:00/km 5 km run records nothing |
| Calculator.ResolveFtp | api/services/custom_calculations.py:210-213 | a truthy override wins, else the stored setting, else 245 |
| Calculator.ResolveFtpIdempotent | api/services/custom_calculations.py:210-213 | resolving with the resolved FTP as override gives the same FTP |
| Calculator.ComputeRecord | api/services/custom_calculations.py:224-264 | the new record carries the FTP used; its training load equals its TSS; TSS and IF are absent without NP, else the TSS/IF formulas; the records come from the two estimators |
| Calculator.CalculateActivityCustomMetrics | api/services/custom_calculations.py:199-269 | unknown activity: None and no change; an existing (activity, athlete) record is returned unchanged with no insert; otherwise exactly that one record is inserted, computed with the resolved FTP |
| Calculator.CountWithRecord | api/services/custom_calculations.py:288-296 | the number of activities skipped is at most the number listed |
| Calculator.CalculateAllAthleteActivities | api/services/custom_calculations.py:271-321 | calculated + skipped + errors equals the number of activities; skipped counts those already computed; every activity of the athlete then has a record, new ones computed with the resolved FTP; without a truthy FTP override an existing settings table is left as it was, and an athlete without a row gets exactly one new row with the default FTP 245, other rows unchanged |
| Calculator.CalculateEach | api/services/custom_calculations.py:282-313 | the batch loop: counters add up to the activities visited and every visited activity ends with a record |
| Calculator.Visit | api/services/custom_calculations.py:286-313 | one iteration: skipped iff the record existed before, otherwise a record is computed and inserted |
| LoadAnalysis.MaxTss | api/services/custom_calculations.py:404 | absent iff no row has a truthy TSS, otherwise the largest truthy TSS, attained by a row |
| LoadAnalysis.IfCount | api/services/custom_calculations.py:407 | the number of truthy intensity factors is at most the number of rows |
| LoadAnalysis.ZoneCounts.Bump | api/services/custom_calculations.py:413-424 | adds one to the given zone and leaves the others unchanged |
| LoadAnalysis.ZoneCounts.Add | api/routes/activities.py:490-502 | adds n to the given zone; the others are unchanged and the total grows by n |
| LoadAnalysis.ZoneHistogramTotal | api/services/custom_calculations.py:411-424 | the zone counts sum to the number of rows with a truthy IF |
| LoadAnalysis.ZoneHistogramOf | api/services/custom_calculations.py:411-424 | each zone counts exactly the rows whose IF falls in it |
| LoadAnalysis.WeeklyTssDistinct | api/services/custom_calculations.py:427-433 | each week key occurs once in the weekly buckets |
| LoadAnalysis.WeeklyTssLookup | api/services/custom_calculations.py:427-433 | a week has a bucket iff some row of that week has a truthy TSS; the bucket holds that week's TSS |
| LoadAnalysis.WeeklySumIsTotal | api/services/custom_calculations.py:401-442 | the weekly sums add up to the total TSS |
| LoadAnalysis.InsertWeekSorted | api/services/custom_calculations.py:452-455 | inserting into an ascending week list keeps it ascending and adds exactly that entry |
| LoadAnalysis.SortWeeksCorrect | api/services/custom_calculations.py:452-455 | the progression is in ascending week order and is a permutation of the buckets |
| LoadAnalysis.RoundedWeeks | api/services/custom_calculations.py:452-455 | each week keeps its key and its TSS rounded to one decimal |
| LoadAnalysis.ZoneShare | api/services/custom_calculations.py:447-450 | a zone's percentage lies in [0, 100] and within 0.05 of count/total·100 |
| LoadAnalysis.CountZones | api/services/custom_calculations.py:411-424 | the zone loop computes the zone histogram |
| LoadAnalysis.SumWeeks | api/services/custom_calculations.py:427-433 | the weekly loop computes the weekly buckets |
| LoadAnalysis.GetTrainingLoadAnalysis | api/services/custom_calculations.py:384-456 | None iff there are no rows; totals, the per-activity average over all rows, max, average IF, average weekly TSS over the weeks with TSS, histogram with its total, shares over all rows, ascending weekly progression |
| TrainingPatterns.SquaredDeviations | api/services/custom_calculations.py:678 | the sum of squared deviations is never negative |
| TrainingPatterns.ScoreOfCounts | api/services/custom_calculations.py:672-683 | the score of any weekly counts lies in [0, 100] |
| TrainingPatterns.ConsistencyScore | api/services/custom_calculations.py:659-683 | the loop computes the consistency score of the rows, which lies in [0, 100] |
| TrainingPatterns.WeekCountsDistinct | api/services/custom_calculations.py:667-670 | each week key counted once |
| TrainingPatterns.WeekCountsTotal | api/services/custom_calculations.py:667-670 | the weekly counts sum to the number of activities |
| TrainingPatterns.OneWeekOneCount | api/services/custom_calculations.py:667-672 | activities all in one week form a single bucket |
| TrainingPatterns.OneWeekScores50 | api/services/custom_calculations.py:672-673 | activities all in one week score exactly 50 |
| TrainingPatterns.NoDeviation | api/services/custom_calculations.py:676-678 | equal counts have zero variance |
| TrainingPatterns.EvenCountsScore100 | api/services/custom_calculations.py:675-683 | two or more equal weekly counts score 100 |
| TrainingPatterns.EvenWeeksScore100 | api/services/custom_calculations.py:659-683 | activities spread evenly over two or more weeks score 100 |
| TrainingPatterns.WithAverages | api/services/custom_calculations.py:631-635 | a day keeps its totals and gets the average TSS (1 decimal) and IF (3 decimals) per activity |
| TrainingPatterns.DayTotalsShape | api/services/custom_calculations.py:618-629 | distinct day keys, each bucket non-empty, counts summing to the number of activities |
| TrainingPatterns.DayCountLookup | api/services/custom_calculations.py:618-629 | a day's count is the number of activities with that day name |
| TrainingPatterns.TypeTotalsShape | api/services/custom_calculations.py:637-648 | distinct type keys, counts summing to the number of activities |
| TrainingPatterns.AnalyzeTrainingPatterns | api/services/custom_calculations.py:603-657 | nothing without rows; a zero-day period fails; otherwise the day buckets with their averages, the type buckets, activities per seven days and the consistency score |
| Advice.SuggestNextWorkout | api/services/custom_calculations.py:730-758 | intensity exactly when recovery rides exceed twice the threshold rides; otherwise active recovery exactly when more than two rides are above threshold; balanced in every other case |
| Advice.NoEasyRidesNoIntensityPush | api/services/custom_calculations.py:730-744 | when every IF is at least 0.70, intensity work is never suggested |
| Advice.NoRecoveryRows | api/services/custom_calculations.py:411-424 | with every IF at least 0.70 no row is in recovery |
| Advice.AssessCurrentForm | api/services/custom_calculations.py:760-774 | excellent iff TSS > 400 and IF > 0.80; otherwise good iff TSS > 300 and IF > 0.75; underdeveloped exactly when TSS < 200 or IF < 0.65; moderate in the remaining case |
| Advice.FormMonotone | api/services/custom_calculations.py:760-774 | more TSS and a higher IF never give a lower form |
| Advice.GetActivityRecommendations | api/services/custom_calculations.py:685-728 | no analysis iff no rows; each rule fires exactly under its threshold, at most one per if/elif pair, the IF rule before the TSS rule; the workout and form follow the analysis |
| Advice.ExcellentFormNeedsNoIncrease | api/services/custom_calculations.py:704-714 | an excellent form never triggers the more-intensity or more-volume rule |
| Records.EstimatedFtp | api/services/custom_calculations.py:350 | present iff the 20-minute power is truthy, and never above it |
| Records.BestTimeOver | api/services/custom_calculations.py:352-363 | the time as stored, with a pace iff the time is truthy |
| Records.RoundedIfTruthy | api/services/custom_calculations.py:365-367 | present iff the aggregate is truthy, rounded to the given decimals |
| Records.AthleteRecordsSummary | api/services/custom_calculations.py:342-370 | None iff no record; power bests with the estimated FTP, five best times with paces, rounded stats |
| Records.MarathonPaceMeaning | api/services/custom_calculations.py:361-362 | the marathon pace reads back as the truncated time per km over 42.2 km |
| Records.Candidates | api/services/custom_calculations.py:540-542 | exactly the rows of 20–30 minutes with IF ≥ 0.95 |
| Records.InsertByIfSorted | api/services/custom_calculations.py:543-544 | inserting keeps the rows in descending IF and adds just that row |
| Records.SortByIfCorrect | api/services/custom_calculations.py:543-544 | the order is descending IF and a permutation of the candidates |
| Records.FtpTestOf | api/services/custom_calculations.py:548-562 | the test's estimated FTP from the 20-minute power, and an improvement over the FTP used iff that estimate is truthy |
| Records.RoundTenthsEnds | api/services/custom_calculations.py:556 | 20 and 30 minutes round to themselves |
| Records.CandidateShape | api/services/custom_calculations.py:540-557 | a candidate reports 20–30 minutes and IF ≥ 0.95 |
| Records.DetectFtpTests | api/services/custom_calculations.py:523-564 | at most ten tests, one per top candidate, in descending IF, each of 20–30 minutes with IF ≥ 0.95 |
| Records.PotentialTestsAreCandidates | api/services/custom_calculations.py:531-545 | every reported row is a candidate, in descending IF |
| Records.OmittedCandidateIsNoMoreIntense | api/services/custom_calculations.py:543-545 | a candidate left out means ten were kept, each at least as intense |
| Records.MaxTruthy | api/services/custom_calculations.py:581-583 | the largest truthy value, attained, or 0 when there is none |
| Records.WithOneMinute | api/services/custom_calculations.py:575 | exactly the records having a 1-minute power |
| Records.PowerCurveData | api/services/custom_calculations.py:566-601 | None iff no record has a 1-minute power; three points at 60/300/1200 s bounding every record; FTP from the 20-minute peak |
| Records.PeakDefaultsToZero | api/services/custom_calculations.py:581-583 | a window no qualifying record has a truthy value for reports the peak 0 |
| Records.PeaksAttained | api/services/custom_calculations.py:581-583 | each peak is the power of some record |
| Records.WithOneMinuteFrom | api/services/custom_calculations.py:575 | each kept record comes from the input |
| TssComparison.BothScored | api/services/custom_calculations.py:471-474 | exactly the rows where both scores are present |
| TssComparison.Selected | api/services/custom_calculations.py:463-477 | at most `limit` rows, each with both scores |
| TssComparison.SumOfDifferences | api/services/custom_calculations.py:489-509 | the per-row differences sum to the difference of the totals |
| TssComparison.MeanOfDifferences | api/services/custom_calculations.py:507-509 | the mean difference is the difference of the means |
| TssComparison.RowComparisonOf | api/services/custom_calculations.py:487-504 | a row's difference and percentage relative to the vendor score; NP and IF are reported iff their values are truthy |
| TssComparison.CompareWithStravaMetrics | api/services/custom_calculations.py:458-521 | no rows gives nothing; a zero vendor score or a zero total is the division-by-zero failure; otherwise each row compared, averages over the rows, the percentage of the mean difference, the FTP of the last row |
| TssComparison.CompareEach | api/services/custom_calculations.py:482-504 | the loop fails iff some vendor score is zero, else compares each row and sums both scores |
| CustomMetrics.ZoneOf | api/models/custom_metrics.py:88-98 | the zone is the band of the IF on the ladder 0.70/0.85/0.95/1.05 |
| CustomMetrics.ZoneMonotone | api/models/custom_metrics.py:88-98 | a higher IF never falls in a lower zone |
| CustomMetrics.ZoneBoundaries | api/models/custom_metrics.py:89-96 | each boundary value falls in the upper zone |
| CustomMetrics.PowerZone | api/models/custom_metrics.py:83-98 | unknown iff the IF is falsy, otherwise the IF's zone |
| CustomMetrics.PaceMinutes | api/models/custom_metrics.py:106 | whole minutes with minutes·60 ≤ pace < minutes·60 + 60 |
| CustomMetrics.PaceSeconds | api/models/custom_metrics.py:107 | seconds below 60 with minutes·60 + seconds the pace truncated to a second |
| CustomMetrics.FormatPace | api/models/custom_metrics.py:100-109 | text iff the time is truthy and the distance positive |
| CustomMetrics.FormatPaceMeaning | api/models/custom_metrics.py:100-109 | the text parses back to M:SS with SS < 60 and M·60+SS the truncated time per km |
| CustomMetrics.PaceTextRoundTrip | api/models/custom_metrics.py:109 | "M:SS/km" parses back to (M, SS) |
| CustomMetrics.ExplainTssDifference | api/models/custom_metrics.py:127-134 | similar iff abs(d) < 5, custom-higher iff d ≥ 5, custom-lower iff d ≤ −5 |
| CustomMetrics.ExplanationAntisymmetric | api/models/custom_metrics.py:127-134 | negating the difference swaps higher and lower and keeps similar |
| CustomMetrics.ComparisonVsStrava | api/models/custom_metrics.py:111-125 | absent unless both scores are truthy; difference custom − vendor, its percentage and explanation |
| CustomMetrics.GetPerformanceSummary | api/models/custom_metrics.py:136-179 | TSS block; power records iff one is truthy, with FTP = 0.95·20-min power iff that is truthy; only the 1, 5 and 10 km entries, each present iff its time is truthy |
| Wrappers.Present | api/models/custom_metrics.py:140-141 | `float(x) if x else None`: present iff truthy, then unchanged |
| CustomMetrics.FtpFrom20Min | api/models/custom_metrics.py:245 | 95 % of the power truncated to a watt, never above the power |
| CustomMetrics.WithSettings | api/models/custom_metrics.py:272-280 | each column takes its keyword's value when present and of the column's type, else keeps its value |
| CustomMetrics.WithSettingsPut | api/models/custom_metrics.py:274-276 | applying one more keyword is one more `setattr` |
| CustomMetrics.IntSettingPut | api/models/custom_metrics.py:274-276 | adding a keyword changes only the integer column it names |
| CustomMetrics.OptIntSettingPut | api/models/custom_metrics.py:274-276 | adding a keyword changes only the nullable integer column it names |
| CustomMetrics.OptRealSettingPut | api/models/custom_metrics.py:274-276 | adding a keyword changes only the numeric column it names |
| CustomMetrics.BoolSettingPut | api/models/custom_metrics.py:274-276 | adding a keyword changes only the flag it names |
| CustomMetrics.WithSettingsIdempotent | api/models/custom_metrics.py:272-280 | applying the same update twice equals applying it once |
| CustomMetrics.WithNoSettings | api/models/custom_metrics.py:272-280 | an empty update changes no column |
| CustomMetrics.AthleteSettings.constructor | api/models/custom_metrics.py:264-267 | a new row holds the athlete and FTP, null heart rates and weight, both flags true |
| CustomMetrics.AthleteSettings.GetZonesConfiguration | api/models/custom_metrics.py:214-237 | the four power bounds are int(ftp·0.55), int(ftp·0.75), int(ftp·0.90) and int(ftp·1.05), ordered; heart-rate zones iff the max HR is truthy, with bounds int(hr·0.68), int(hr·0.83), int(hr·0.94) and int(hr·1.05), ordered |
| CustomMetrics.PowerBoundsOf | api/models/custom_metrics.py:217-224 | each power bound is the whole part of its FTP fraction (55, 75, 90, 105 %), and they ascend |
| CustomMetrics.HrBoundsOf | api/models/custom_metrics.py:228-235 | each heart-rate bound is the whole part of its max-HR fraction (68, 83, 94, 105 %), and they ascend |
| CustomMetrics.AthleteSettings.EstimateFtpFromPerformances | api/models/custom_metrics.py:239-257 | the current FTP without 20-minute power; no change within 5 W; otherwise a proposal, 'update' iff beyond 10 W |
| CustomMetrics.AthleteSettings.UpdateSettings | api/models/custom_metrics.py:272-280 | the row becomes the update of its old values by the keywords, and `updated_at` is now |
| CustomMetrics.AthleteSettings.SetAttribute | api/models/custom_metrics.py:276 | one `setattr` on the row, nothing else changes |
| CustomMetrics.AthleteSettings.GetTrainingRecommendations | api/models/custom_metrics.py:282-304 | each focus appears iff its input is truthy and past its threshold; guidance goes with the IF focus; at most two focuses, none repeated, the IF focus before the TSS focus |
| CustomMetrics.SettingsTable.constructor | api/models/custom_metrics.py:186 | the table starts empty, with every row under its own athlete id |
| CustomMetrics.SettingsTable.GetOrCreateForAthlete | api/models/custom_metrics.py:259-270 | an existing row is returned unchanged; otherwise a new row with the default FTP is inserted; the row returned belongs to the athlete and every row stays under its own athlete id |
| StravaMetrics.EffortLevel | api/models/strava_metrics.py:93-106 | unknown iff the suffer score is falsy, otherwise its band on 50/100/150 |
| StravaMetrics.EffortMonotone | api/models/strava_metrics.py:93-106 | a higher suffer score never gives a lower effort |
| StravaMetrics.ActivityContext | api/models/strava_metrics.py:108-115 | indoor iff trainer, commute iff commute without trainer, outdoor otherwise |
| StravaMetrics.VariabilityIndex | api/models/strava_metrics.py:145-153 | present iff NP and average power are truthy, NP/avg to three decimals |
| StravaMetrics.SteadyEffortIndex | api/models/strava_metrics.py:145-153 | NP equal to average power gives index 1.0 |
| StravaMetrics.VariabilityMonotone | api/models/strava_metrics.py:153 | at equal average power a higher NP never lowers the index |
| StravaMetrics.HrReservePercentage | api/models/strava_metrics.py:155-165 | present iff average HR is truthy and the reserve above 60 bpm is positive; the share of reserve used |
| StravaMetrics.HrReserveWithin | api/models/strava_metrics.py:155-165 | an average HR between rest and max uses 0–100 % of the reserve |
| StravaMetrics.CardiacEfficiency | api/models/strava_metrics.py:167-175 | present iff NP and average HR are truthy, NP/HR to two decimals |
| StravaMetrics.PowerMetricsSummary | api/models/strava_metrics.py:117-130 | present iff average power is truthy; quality excellent iff a power meter; NP, max and index as reported |
| StravaMetrics.HeartrateMetricsSummary | api/models/strava_metrics.py:132-143 | present iff a sensor and a truthy average HR, with reserve and efficiency |
| StravaMetrics.IsQualityWorkout | api/models/strava_metrics.py:177-195 | true iff at least two of the three indicators hold |
| StravaMetrics.PowerBandOf | api/models/strava_metrics.py:209-218 | the power band on the 0.56/0.76/0.91/1.05 ladder |
| StravaMetrics.HrBandOf | api/models/strava_metrics.py:231-240 | the heart-rate band on the 0.70/0.84/0.94/1.06 ladder |
| StravaMetrics.TrainingZonesEstimate | api/models/strava_metrics.py:197-248 | each entry present iff its input is truthy, with the band of the ratio, the rounded ratio and the raw value |
| StravaMetrics.ZoneEstimateLaddersAscending | api/models/strava_metrics.py:209-240 | both ladders ascend, and boundary values fall in the upper band |
| StravaMetrics.PowerCoverage | api/models/strava_metrics.py:281 | 0 with no activities, in [0, 100] when power activities ≤ total, and within 0.05 of power/total·100 |
| StravaMetrics.CoveragePercentage | api/routes/activities.py:164-165 | 0 with no activities, in [0, 100] when part ≤ total, 100 when all are covered, and within 0.05 of part/total·100 |
| StravaService.StravaService.constructor | api/services/strava_service.py:12-13 | the count starts at 0, the window at the given time |
| StravaService.StravaService.RateLimitWait | api/services/strava_service.py:15-29 | past the window: reset to one request; inside with a spent budget: wait for the rest of the window and restart at one; otherwise one more request; the count stays in [1, 95] |
| StravaService.DeriveActivity | api/services/strava_service.py:143-180 | the stored row: the payload's id, name, type, sport type and both start times; the distance in km rounded to the two decimals of the `Numeric(8, 2)` `distance_km` column, which the later distance bands see; durations in hours to two decimals; year, month, day, ISO week and weekday of the local start; the French day and month names; the optional speeds, elevation, heart rates and calories as given |
| StravaService.DayNamesDistinct | api/services/strava_service.py:149 | different weekdays get different day names |
| StravaService.ProcessActivity | api/services/strava_service.py:135-184 | a known vendor id inserts nothing and answers false; otherwise the derived row is inserted under the next key and indexed |
| Database.Store.constructor | api/models/database.py:33-34 | the activity, metrics and settings tables start empty |
| ActivityRoutes.SafeFloat | api/routes/activities.py:13-20 | the default for None, otherwise the value |
| ActivityRoutes.PerPage | api/routes/activities.py:28 | the default 50 when missing, the request when within the cap, exactly 200 above it |
| ActivityRoutes.FloorDiv | api/routes/activities.py:101 | Python floor division: the quotient rounded toward minus infinity |
| ActivityRoutes.Pages | api/routes/activities.py:101 | defined iff the page size is non-zero |
| ActivityRoutes.PagesIsCeiling | api/routes/activities.py:101 | the page count is the ceiling of total / per page |
| ActivityRoutes.MetricsStatusOf | api/routes/activities.py:190-205 | with and without counts add up to the total; coverages are 0 with no activities, in [0, 100], 100 when complete, and within 0.05 of part/total·100 |
| ActivityRoutes.WeightedZonesTotals | api/routes/activities.py:490-502 | the zone totals sum to the row counts, and each zone holds the counts of its rows |
| ActivityRoutes.TrainingSummaryZones | api/routes/activities.py:490-502 | the zone loop computes the weighted histogram |
| ActivityRoutes.ValidFtp | api/routes/activities.py:315-317 | accepted iff a positive JSON integer or `true`, as that positive value |
| ActivityRoutes.SetAthleteSettings | api/routes/activities.py:307-345 | rejected without `ftp` or with an invalid one, with nothing changed; otherwise the athlete's row, existing or new, takes the FTP, the heart rates, the weight and the update time, keeps its athlete id and flags, and every other athlete's row is unchanged |
| ActivityRoutes.UpdateFtpAndRecalculate | api/routes/activities.py:766-825 | invalid FTP changes nothing; otherwise only the athlete's FTP and update time change (old = new and difference 0 for a new row), other athletes' rows, the activities and their index stay as they were, and, when `recalculate_recent` is truthy (an empty list or object is not), the recent records are recomputed with the new FTP and others kept |
| ActivityRoutes.StoreNewFtp | api/routes/activities.py:776-780 | get-or-create the row with the new FTP and report the FTP it had; only that row's FTP and update time change, every other row is unchanged |
| ActivityRoutes.RecalculateRecent | api/routes/activities.py:785-813 | recent records deleted and recomputed with the new FTP; each other record, the activities, their index and the next id kept as they were |
| ActivityRoutes.InsertRecent | api/routes/activities.py:800-813 | one new record per recent activity; existing records, the activities, their index and the next id untouched |

## Left out

- Networking. The vendor OAuth exchange, token refresh, athlete lookup and activity paging are left out: `exchange_code_for_token`, `refresh_token`, `get_authenticated_athlete`, `get_athlete_activities` and `sync_athlete_activities` in api/services/strava_service.py. They are HTTP clients.
- Flask plumbing. Routing, request parsing, JSON responses, CSV export and logging are left out. They are I/O. Only the arithmetic and validation inside the routes are modelled.
- Queries. SQL filters, joins, ordering, limits and commits become input sequences of rows and maps. The limit is a natural number.
- `Records.SortByIfCorrect`: the FTP-test order is a stable sort. It does not model how the database orders ties under `ORDER BY`: rows of equal intensity keep their input order.
- Dates. The `utcnow()` cutoffs, `strftime` week keys, `isocalendar()` and `weekday()` are inputs. The calendar arithmetic behind them is not modelled.
- Week keys. They are compared by (year, week), which matches string order only for four-digit years.
- Floating point. IEEE-754 floats become exact reals. Python's round-half-even `round` becomes round-half-up, and `Decimal` coercion is not modelled. The column scales are not modelled either, except for `distance_km`. That column's two decimals are applied when the row is derived: half up, which for the non-negative distances the vendor reports agrees with the database's rounding.
- Text. The recommendation texts, explanation strings and zone labels are left out. They become constructors that record which branch was taken.
- `Calculator.CalculateAllAthleteActivities`: its errors counter is always 0. The database exceptions that would increment it are not modelled.
- `ActivityRoutes.SetAthleteSettings`: it requires the heart-rate and weight fields to be null or of their column's type, and the model assumes every commit succeeds and that booleans are stored as 0 or 1. How the database converts or rejects other values, including a JSON `true` FTP, is not modelled.
- `CustomMetrics.AthleteSettings.UpdateSettings`: a value whose type does not fit its column is skipped. The source sets it anyway, and what the database then does with it is not modelled.
- `StravaService.ProcessActivity`: the payload is typed, so a record missing `id`, `start_date` or `start_date_local`, or carrying a malformed date, cannot be expressed. The source's rollback and `False` answer for those (api/services/strava_service.py:137-189) are not modelled, and every commit is assumed to succeed.
- `StravaMetrics.TrainingZonesEstimate`: it requires a non-zero `ftp` or `lthr` when the matching input is present. The source would raise ZeroDivisionError.
- The service's own `format_pace` (api/services/custom_calculations.py:372-382) computes the same text as the model's and shares `CustomMetrics.FormatPace`.
- `ActivityRoutes.SafeFloat`: it takes an already numeric or missing value. Parsing arbitrary objects with `float()` is not modelled.
- The query parts of `get_athlete_power_summary` are left out. Only its `power_coverage` expression is modelled.
- `to_dict` serialisation and api/models/database.py's schema beyond the stored fields are not part of this model.
- Configuration and the front-end are not part of this model.
