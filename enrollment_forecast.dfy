/**
 * The enrollment forecast of a study: starting from the study's latest
 * weekly observation, a loop asks a trained regressor for each coming
 * week's enrollment, clamps the prediction at zero and the running total at
 * the target, and collects one forecast row per week. The regressor is a
 * parameter (`Predictor`); the observations are passed in rather than read
 * from disk.
 */
module EnrollmentForecast {
  import opened Wrappers
  import opened Dates
  import opened Sorting
  import opened Tables

  /** A row of the enrollment time series (the columns the forecast reads). */
  datatype Observation = Observation(
    studyId: string, week: int, date: Date,
    cumulativeEnrolled: int, plannedCumulative: int, targetEnrollment: int)

  /** The feature vector handed to the regressor. The sine and cosine of the
      week's position in a 52-week year are functions of `week`, so a
      predictor reads them from it. */
  datatype Features = Features(week: int, cumulative: int, enrollmentRatio: real, gapRatio: real, target: int)

  /** `int(model.predict(features)[0])` */
  type Predictor = Features -> int

  /** A row of the forecast frame. */
  datatype ForecastRow = ForecastRow(
    studyId: string, week: int, date: Date, predictedEnrolled: int,
    cumulativeForecast: int, targetEnrollment: int, isForecast: bool)

  /** The forecast frame's columns, in the order each row dict lists them. */
  function ForecastColumns(): seq<string> {
    ["study_id", "week", "date", "predicted_enrolled", "cumulative_forecast", "target_enrollment", "is_forecast"]
  }

  // ---------------------------------------------------------------------------
  // The study's latest observation
  // ---------------------------------------------------------------------------

  /** `ts[ts["study_id"] == study_id]` */
  function StudyRows(ts: seq<Observation>, studyId: string): (r: seq<Observation>)
    ensures forall i :: 0 <= i < |r| ==> r[i].studyId == studyId
    ensures forall x :: x in r <==> x in ts && x.studyId == studyId
  {
    var r := Filter(ts, (o: Observation) => o.studyId == studyId);
    FilterCount(ts, (o: Observation) => o.studyId == studyId);
    assert forall x :: x in r <==> x in multiset(r);
    r
  }

  predicate WeekLe(a: Observation, b: Observation) {
    a.week <= b.week
  }

  lemma WeekLePreorder()
    ensures TotalPreorder(WeekLe)
  {
  }

  /** `.sort_values("week")` */
  function SortByWeek(rows: seq<Observation>): (r: seq<Observation>)
    ensures SortedBy(r, WeekLe)
    ensures |r| == |rows| && forall x :: x in r <==> x in rows
  {
    WeekLePreorder();
    var r := Sort(rows, WeekLe);
    assert forall x :: x in r <==> x in multiset(rows);
    r
  }

  /** The last row of a sequence sorted by week has the latest week. */
  lemma LastHasLatestWeek(sorted: seq<Observation>)
    requires sorted != [] && SortedBy(sorted, WeekLe)
    ensures forall k :: 0 <= k < |sorted| ==> sorted[k].week <= sorted[|sorted| - 1].week
  {
    forall k | 0 <= k < |sorted| ensures sorted[k].week <= sorted[|sorted| - 1].week {
      if k < |sorted| - 1 {
        assert WeekLe(sorted[k], sorted[|sorted| - 1]);
      }
    }
  }

  /** `study_ts.iloc[-1]`: a row of the study with the latest week. */
  lemma LatestObservation(ts: seq<Observation>, studyId: string)
    requires SortByWeek(StudyRows(ts, studyId)) != []
    ensures var sorted := SortByWeek(StudyRows(ts, studyId)); var last := sorted[|sorted| - 1];
      && last in ts && last.studyId == studyId
      && forall o :: o in ts && o.studyId == studyId ==> o.week <= last.week
  {
    var rows := StudyRows(ts, studyId);
    var sorted := SortByWeek(rows);
    var last := sorted[|sorted| - 1];
    LastHasLatestWeek(sorted);
    assert last in sorted;
    forall o | o in ts && o.studyId == studyId ensures o.week <= last.week {
      assert o in rows;
      assert o in sorted;
    }
  }

  // ---------------------------------------------------------------------------
  // One week of the loop
  // ---------------------------------------------------------------------------

  /** `max(1, target)` */
  function Denominator(target: int): (d: int)
    ensures d >= 1 && d >= target
    ensures d == target || d == 1
  {
    if target < 1 then 1 else target
  }

  /** The features of a forecast week: the ratios divide by `max(1, target)`,
      and the gap is measured from the last observed planned total. */
  function FeaturesFor(last: Observation, week: int, cumulative: int): Features {
    var d := Denominator(last.targetEnrollment) as real;
    Features(week, cumulative, cumulative as real / d,
             (last.plannedCumulative - cumulative) as real / d, last.targetEnrollment)
  }

  /** The regressor sees the forecast week, the running total, and both
      ratios scaled back by `max(1, target)` give the running total and its
      gap to the last observed planned total. */
  lemma FeatureRatios(last: Observation, week: int, cumulative: int)
    ensures var f := FeaturesFor(last, week, cumulative);
      var d := (if last.targetEnrollment >= 1 then last.targetEnrollment else 1) as real;
      && f.week == week && f.cumulative == cumulative && f.target == last.targetEnrollment
      && f.enrollmentRatio * d == cumulative as real
      && f.gapRatio * d == (last.plannedCumulative - cumulative) as real
  {
  }

  /** `max(0, int(model.predict(features)[0]))` */
  function Predicted(predict: Predictor, last: Observation, w: int, cumulative: int): (p: int)
    ensures p >= 0
    ensures p >= predict(FeaturesFor(last, last.week + w, cumulative))
  {
    var raw := predict(FeaturesFor(last, last.week + w, cumulative));
    if raw < 0 then 0 else raw
  }

  /** `min(target, cumulative + predicted)` */
  function Clamp(target: int, cumulative: int, predicted: int): (c: int)
    ensures c <= target
    ensures c <= cumulative + predicted
    ensures c == target || c == cumulative + predicted
  {
    if cumulative + predicted < target then cumulative + predicted else target
  }

  /** The running total after `k` forecast weeks. */
  function CumulativeAfter(predict: Predictor, last: Observation, k: nat): int
    decreases k
  {
    if k == 0 then last.cumulativeEnrolled
    else
      var c := CumulativeAfter(predict, last, k - 1);
      Clamp(last.targetEnrollment, c, Predicted(predict, last, k, c))
  }

  /** The row of forecast week `w` (1 for the week after the last
      observation). */
  function RowAt(studyId: string, predict: Predictor, last: Observation, w: nat): ForecastRow
    requires w >= 1 && Valid(last.date)
  {
    var c := CumulativeAfter(predict, last, w - 1);
    var p := Predicted(predict, last, w, c);
    ForecastRow(studyId, last.week + w, AddDays(last.date, 7 * w), p,
                Clamp(last.targetEnrollment, c, p), last.targetEnrollment, true)
  }

  /** The rows of forecast weeks 1 to `n`. */
  predicate RowsUpTo(rows: seq<ForecastRow>, studyId: string, predict: Predictor, last: Observation, n: nat)
    requires Valid(last.date)
  {
    |rows| == n && forall i :: 0 <= i < n ==> rows[i] == RowAt(studyId, predict, last, i + 1)
  }

  lemma RowsExtend(rows: seq<ForecastRow>, studyId: string, predict: Predictor, last: Observation, n: nat, row: ForecastRow)
    requires Valid(last.date) && RowsUpTo(rows, studyId, predict, last, n)
    requires row == RowAt(studyId, predict, last, n + 1)
    ensures RowsUpTo(rows + [row], studyId, predict, last, n + 1)
  {
  }

  // ---------------------------------------------------------------------------
  // forecast_enrollment
  // ---------------------------------------------------------------------------

  /** One pass of the loop body: week `w`'s prediction and row, and the
      running total it leaves. */
  method ForecastWeek(studyId: string, predict: Predictor, last: Observation, w: nat, cumulative: int)
    returns (row: ForecastRow, next: int)
    requires w >= 1 && Valid(last.date)
    requires cumulative == CumulativeAfter(predict, last, w - 1)
    ensures row == RowAt(studyId, predict, last, w)
    ensures next == CumulativeAfter(predict, last, w) == row.cumulativeForecast
  {
    var target := last.targetEnrollment;
    var week := last.week + w;
    var features := FeaturesFor(last, week, cumulative);
    var raw := predict(features);
    var predicted := if raw < 0 then 0 else raw;
    assert predicted == Predicted(predict, last, w, cumulative);
    next := if cumulative + predicted < target then cumulative + predicted else target;
    assert next == Clamp(target, cumulative, predicted);
    var forecastDate := AddDays(last.date, 7 * w);
    row := ForecastRow(studyId, week, forecastDate, predicted, next, target, true);
  }

  /** The forecast loop, from the latest observation `last`. */
  method ForecastFrom(studyId: string, predict: Predictor, last: Observation, weeksAhead: int) returns (forecasts: seq<ForecastRow>)
    requires Valid(last.date)
    ensures RowsUpTo(forecasts, studyId, predict, last, if weeksAhead < 0 then 0 else weeksAhead)
  {
    var cumulative := last.cumulativeEnrolled;
    forecasts := [];
    var w := 1;
    while w <= weeksAhead
      invariant 1 <= w <= (if weeksAhead < 0 then 0 else weeksAhead) + 1
      invariant cumulative == CumulativeAfter(predict, last, w - 1)
      invariant RowsUpTo(forecasts, studyId, predict, last, w - 1)
    {
      var row;
      row, cumulative := ForecastWeek(studyId, predict, last, w, cumulative);
      RowsExtend(forecasts, studyId, predict, last, w - 1, row);
      forecasts := forecasts + [row];
      w := w + 1;
    }
  }

  /** `forecast_enrollment(study_id, weeks_ahead)`: the empty frame when the
      study has no observations or there is no model; otherwise one row per
      coming week from the study's latest observation. */
  method ForecastEnrollment(ts: seq<Observation>, model: Option<Predictor>, studyId: string, weeksAhead: int)
    returns (result: Frame<ForecastRow>)
    requires forall i :: 0 <= i < |ts| ==> Valid(ts[i].date)
    ensures StudyRows(ts, studyId) == [] || model.None? ==> result == Frame([], [])
    ensures StudyRows(ts, studyId) != [] && model.Some? ==>
      var sorted := SortByWeek(StudyRows(ts, studyId));
      var n := if weeksAhead < 0 then 0 else weeksAhead;
      && result.columns == (if n == 0 then [] else ForecastColumns())
      && RowsUpTo(result.rows, studyId, model.value, sorted[|sorted| - 1], n)
  {
    var studyTs := SortByWeek(StudyRows(ts, studyId));
    if |studyTs| == 0 || model.None? {
      return Frame([], []);
    }
    var last := studyTs[|studyTs| - 1];
    assert last in ts;
    var forecasts := ForecastFrom(studyId, model.value, last, weeksAhead);
    result := Frame(if forecasts == [] then [] else ForecastColumns(), forecasts);
  }

  // ---------------------------------------------------------------------------
  // What the forecast promises
  // ---------------------------------------------------------------------------

  /** Row `w` is for week `last_week + w`, dated `w` weeks after the last
      observation, of the same study and target, and marked as a forecast;
      its prediction is never negative. */
  lemma RowFields(studyId: string, predict: Predictor, last: Observation, w: nat)
    requires w >= 1 && Valid(last.date)
    ensures var r := RowAt(studyId, predict, last, w);
      && r.week == last.week + w
      && Valid(r.date) && Ordinal(r.date) == Ordinal(last.date) + 7 * w
      && r.studyId == studyId && r.targetEnrollment == last.targetEnrollment && r.isForecast
      && r.predictedEnrolled >= 0
  {
  }

  /** After the first forecast week the running total never exceeds the
      target. */
  lemma {:induction false} CumulativeCapped(predict: Predictor, last: Observation, k: nat)
    requires k >= 1
    ensures CumulativeAfter(predict, last, k) <= last.targetEnrollment
  {
  }

  /** The first forecast week does not fall below an observed total that is
      within the target. */
  lemma CumulativeStart(predict: Predictor, last: Observation)
    requires last.cumulativeEnrolled <= last.targetEnrollment
    ensures last.cumulativeEnrolled <= CumulativeAfter(predict, last, 1)
  {
    assert CumulativeAfter(predict, last, 0) == last.cumulativeEnrolled;
  }

  /** From one forecast week to the next the running total never falls. */
  lemma {:induction false} CumulativeStep(predict: Predictor, last: Observation, k: nat)
    requires k >= 1
    ensures CumulativeAfter(predict, last, k) <= CumulativeAfter(predict, last, k + 1)
  {
    CumulativeCapped(predict, last, k);
  }

  /** Over any span of forecast weeks the running total never falls. */
  lemma {:induction false} CumulativeMonotone(predict: Predictor, last: Observation, j: nat, k: nat)
    requires 1 <= j <= k
    ensures CumulativeAfter(predict, last, j) <= CumulativeAfter(predict, last, k)
    decreases k - j
  {
    if j < k {
      CumulativeStep(predict, last, j);
      CumulativeMonotone(predict, last, j + 1, k);
    }
  }

  /** Row `i`'s forecast column is the running total after `i + 1` weeks. */
  lemma RowsCumulative(studyId: string, predict: Predictor, last: Observation, rows: seq<ForecastRow>, n: nat)
    requires Valid(last.date) && RowsUpTo(rows, studyId, predict, last, n)
    ensures forall i :: 0 <= i < n ==> rows[i].cumulativeForecast == CumulativeAfter(predict, last, i + 1)
  {
    forall i | 0 <= i < n ensures rows[i].cumulativeForecast == CumulativeAfter(predict, last, i + 1) {
      assert rows[i] == RowAt(studyId, predict, last, i + 1);
    }
  }

  /** The forecast column is capped by the target and never decreases down
      the rows; when the last observation was within the target, the first
      row does not fall below it either. */
  lemma ForecastOrdered(studyId: string, predict: Predictor, last: Observation, rows: seq<ForecastRow>, n: nat)
    requires Valid(last.date) && RowsUpTo(rows, studyId, predict, last, n)
    ensures forall i :: 0 <= i < n ==> rows[i].cumulativeForecast <= last.targetEnrollment
    ensures forall i, j :: 0 <= i <= j < n ==> rows[i].cumulativeForecast <= rows[j].cumulativeForecast
    ensures n > 0 && last.cumulativeEnrolled <= last.targetEnrollment ==> last.cumulativeEnrolled <= rows[0].cumulativeForecast
  {
    RowsCumulative(studyId, predict, last, rows, n);
    forall i | 0 <= i < n ensures rows[i].cumulativeForecast <= last.targetEnrollment {
      CumulativeCapped(predict, last, i + 1);
    }
    forall i, j | 0 <= i <= j < n ensures rows[i].cumulativeForecast <= rows[j].cumulativeForecast {
      CumulativeMonotone(predict, last, i + 1, j + 1);
    }
    if n > 0 && last.cumulativeEnrolled <= last.targetEnrollment {
      CumulativeStart(predict, last);
    }
  }

  /** Consecutive rows are consecutive weeks, seven days apart. */
  lemma ForecastWeeks(studyId: string, predict: Predictor, last: Observation, rows: seq<ForecastRow>, n: nat)
    requires Valid(last.date) && RowsUpTo(rows, studyId, predict, last, n)
    ensures forall i :: 0 <= i < n ==> rows[i].week == last.week + i + 1
    ensures forall i :: 0 <= i < n - 1 ==>
              rows[i + 1].week == rows[i].week + 1 && Ordinal(rows[i + 1].date) == Ordinal(rows[i].date) + 7
  {
  }
}
