/**
 * The history analytics of the statistics screen (`GameAnalyzer` and the
 * scroll handling of `GameAnalysis`): per-game series and summary figures
 * derived from the match history, and the offset of the scrolling chart.
 *
 * Rates are exact rationals: the `round(..., 1)` and `round(..., 2)` of
 * the displayed values are not modelled.
 */
module Analysis {
  import opened Wrappers
  import opened Text
  import opened Sorting
  import opened Series
  import opened Runs
  import opened Geometry
  import opened ScoreManage
  import Achievements

  /** One game after the time field has been converted: `(score, time, date)`. */
  datatype Row = Row(score: int, time: int, date: string)

  function RowScore(r: Row): int { r.score }
  function RowTime(r: Row): int { r.time }
  function RecordScore(r: Record): int { r.score }

  /** The sort key of `combined.sort(key=lambda x: x[2])`: the date string, compared code point by code point. */
  function DateKey(r: Row): seq<int> { Codes(r.date) }

  /**
   * The time fields converted with `int()`, or `None` as soon as one of
   * them is not an integer, when `analyze_data` gives up.
   */
  function ParseTimes(rs: seq<Record>): (ts: Option<seq<int>>)
    ensures ts.Some? <==> forall i :: 0 <= i < |rs| ==> ParseInt(rs[i].time).Some?
    ensures ts.Some? ==> |ts.value| == |rs| && forall i :: 0 <= i < |rs| ==> ParseInt(rs[i].time) == Some(ts.value[i])
  {
    if rs == [] then Some([])
    else
      var p := rs[..|rs| - 1];
      assert forall i :: 0 <= i < |p| ==> p[i] == rs[i];
      match ParseTimes(p)
      case None => None
      case Some(ts) =>
        match ParseInt(rs[|rs| - 1].time)
        case None => None
        case Some(t) => Some(ts + [t])
  }

  /** `list(zip(scores, times, dates))`. */
  function Rows(rs: seq<Record>, ts: seq<int>): (rows: seq<Row>)
    requires |ts| == |rs|
    ensures |rows| == |rs| && forall i :: 0 <= i < |rs| ==> rows[i] == Row(rs[i].score, ts[i], rs[i].date)
  {
    seq(|rs|, i requires 0 <= i < |rs| => Row(rs[i].score, ts[i], rs[i].date))
  }

  /** The rows stably sorted by date string, ascending. */
  function ByDate(rows: seq<Row>): seq<Row> {
    SortByKey(rows, DateKey)
  }

  function DatesOf(rows: seq<Row>): (ds: seq<string>)
    ensures |ds| == |rows| && forall i :: 0 <= i < |rows| ==> ds[i] == rows[i].date
  {
    seq(|rows|, i requires 0 <= i < |rows| => rows[i].date)
  }

  /** The food estimate of every game, each computed against the same time `lastTime`. */
  function FoodCounts(scores: seq<int>, lastTime: int): (fs: seq<int>)
    ensures |fs| == |scores|
  {
    seq(|scores|, i requires 0 <= i < |scores| => Achievements.FoodCount(scores[i], lastTime))
  }

  /** Food per second of every game; 0 for a game whose time is not positive. */
  function FoodEfficiency(foods: seq<int>, times: seq<int>): (es: seq<real>)
    requires |foods| == |times|
    ensures |es| == |times|
  {
    seq(|times|, i requires 0 <= i < |times| => if times[i] > 0 then foods[i] as real / times[i] as real else 0.0)
  }

  /** The growth in percent from a score of `prev` to one of `cur`; 0 after a score of 0. */
  function GrowthRate(prev: int, cur: int): real {
    if prev != 0 then (cur - prev) as real / prev as real * 100.0 else 0.0
  }

  /** The growth rate of every game against the game before it, 0 for the first one. */
  function GrowthRates(scores: seq<int>): (g: seq<real>)
    ensures |g| == if |scores| == 0 then 1 else |scores|
  {
    var n := if |scores| == 0 then 0 else |scores| - 1;
    [0.0] + seq(n, i requires 0 <= i < n => GrowthRate(scores[i], scores[i + 1]))
  }

  /** Seconds per point of every game; 0 for a game that scored 0. */
  function Efficiency(scores: seq<int>, times: seq<int>): (es: seq<real>)
    requires |scores| == |times|
    ensures |es| == |scores|
  {
    seq(|scores|, i requires 0 <= i < |scores| => if scores[i] != 0 then times[i] as real / scores[i] as real else 0.0)
  }

  /** `date[:10]`: at most the first ten characters. */
  function DatePrefix(date: string): (p: string)
    ensures |p| == (if |date| < 10 then |date| else 10) && p <= date
  {
    date[..if |date| < 10 then |date| else 10]
  }

  /** The chart labels `f"{idx + 1}.{date[:10]}"`. */
  function DateLabels(dates: seq<string>): (labels: seq<string>)
    ensures |labels| == |dates|
  {
    seq(|dates|, i requires 0 <= i < |dates| => IntToString(i + 1) + "." + DatePrefix(dates[i]))
  }

  /** Python's `min(s)` on a non-empty list. */
  function MinReal(s: seq<real>): (m: real)
    requires s != []
    ensures (forall i :: 0 <= i < |s| ==> m <= s[i]) && exists i :: 0 <= i < |s| && s[i] == m
  {
    if |s| == 1 then s[0]
    else
      var m := MinReal(s[..|s| - 1]);
      assert forall i :: 0 <= i < |s| - 1 ==> s[..|s| - 1][i] == s[i];
      if s[|s| - 1] < m then s[|s| - 1] else m
  }

  /** Which growth rates count for the streak: the strictly positive ones. */
  function Positives(rates: seq<real>): (bs: seq<bool>)
    ensures |bs| == |rates| && forall i :: 0 <= i < |rates| ==> (bs[i] <==> rates[i] > 0.0)
  {
    seq(|rates|, i requires 0 <= i < |rates| => rates[i] > 0.0)
  }

  /** The dictionary `analyze_data` returns. */
  datatype Report = Report(
    scores: seq<int>, times: seq<int>, efficiency: seq<real>, growthRates: seq<real>,
    dates: seq<string>, avgScore: int, bestEfficiency: real, totalGames: int,
    totalTime: int, totalFood: int, foodEfficiency: seq<real>, overallFoodRate: real,
    maxStreak: int, foodCounts: seq<int>)

  /**
   * The fields of `rep` derived from its date-ordered `scores` and `times`,
   * the matching `dates`, and the time `lastTime` every food estimate is
   * computed against.
   */
  ghost predicate Summarizes(rep: Report, dates: seq<string>, lastTime: int) {
    var n := |rep.scores|;
    n >= 2 && |rep.times| == n && |dates| == n &&
    rep.foodCounts == FoodCounts(rep.scores, lastTime) &&
    rep.foodEfficiency == FoodEfficiency(rep.foodCounts, rep.times) &&
    rep.growthRates == GrowthRates(rep.scores) &&
    rep.efficiency == Efficiency(rep.scores, rep.times) &&
    rep.dates == DateLabels(dates) &&
    rep.avgScore == Sum(rep.scores) / n &&
    rep.bestEfficiency == MinReal(rep.efficiency) &&
    rep.totalGames == n && rep.totalTime == Sum(rep.times) && rep.totalFood == Sum(rep.foodCounts) &&
    rep.overallFoodRate == (if rep.totalTime > 0 then rep.totalFood as real / rep.totalTime as real else 0.0) &&
    IsLongestRun(Positives(rep.growthRates[1..]), rep.maxStreak)
  }

  /**
   * `rep` is what `analyze_data` returns for the history `rankings`: at
   * least two records, every time an integer, the series taken over the
   * records sorted by date, and every food estimate computed against the
   * time of the LAST record of `rankings` (the loop variable `rank` of the
   * time conversion, still bound after that loop), not against the
   * record's own time.
   */
  ghost predicate Analyzes(rankings: seq<Record>, rep: Report) {
    var n := |rankings|;
    n >= 2 && ParseTimes(rankings).Some? &&
    var ts := ParseTimes(rankings).value;
    var rows := ByDate(Rows(rankings, ts));
    rep.scores == Project(rows, RowScore) && rep.times == Project(rows, RowTime) &&
    Summarizes(rep, DatesOf(rows), ts[n - 1])
  }

  /** The conversion loop of `analyze_data`: `None` at the first time that is not an integer. */
  method ConvertTimes(rankings: seq<Record>) returns (times: Option<seq<int>>)
    ensures times == ParseTimes(rankings)
  {
    var ts: seq<int> := [];
    var i := 0;
    while i < |rankings|
      invariant 0 <= i <= |rankings|
      invariant ParseTimes(rankings[..i]) == Some(ts)
    {
      assert rankings[..i + 1][..i] == rankings[..i];
      match ParseInt(rankings[i].time) {
        case None =>
          ParseTimesFails(rankings, i);
          return None;
        case Some(t) =>
          ts := ts + [t];
      }
      i := i + 1;
    }
    assert rankings[..i] == rankings;
    return Some(ts);
  }

  /** The food-count loop of `analyze_data`, every estimate against `lastTime`. */
  method CountFood(scores: seq<int>, lastTime: int) returns (foodCounts: seq<int>)
    ensures foodCounts == FoodCounts(scores, lastTime)
  {
    foodCounts := [];
    var i := 0;
    while i < |scores|
      invariant 0 <= i <= |scores|
      invariant |foodCounts| == i
      invariant forall j :: 0 <= j < i ==> foodCounts[j] == Achievements.FoodCount(scores[j], lastTime)
    {
      foodCounts := foodCounts + [Achievements.FoodCount(scores[i], lastTime)];
      i := i + 1;
    }
  }

  /** The streak loop of `analyze_data`: the longest run of positive rates after the first. */
  method LongestPositiveStreak(growthRates: seq<real>) returns (maxStreak: int)
    requires |growthRates| >= 1
    ensures IsLongestRun(Positives(growthRates[1..]), maxStreak)
  {
    var streak := 0;
    maxStreak := 0;
    ghost var bs := Positives(growthRates[1..]);
    ScanRunsLongest(bs);
    var i := 1;
    while i < |growthRates|
      invariant 1 <= i <= |growthRates|
      invariant Streak(streak, maxStreak) == ScanRuns(bs[..i - 1])
    {
      assert bs[..i][..i - 1] == bs[..i - 1];
      assert growthRates[1..][i - 1] == growthRates[i];
      if growthRates[i] > 0.0 {
        streak := streak + 1;
        maxStreak := if maxStreak > streak then maxStreak else streak;
      } else {
        streak := 0;
      }
      i := i + 1;
    }
    assert bs[..i - 1] == bs;
  }

  /**
   * `analyze_data()` on the history `rankings`: `None` for fewer than two
   * records or a time that is not an integer, otherwise the report.
   */
  method AnalyzeData(rankings: seq<Record>) returns (report: Option<Report>)
    ensures report.Some? <==> |rankings| >= 2 && ParseTimes(rankings).Some?
    ensures report.Some? ==> Analyzes(rankings, report.value)
  {
    if |rankings| == 0 {
      return None;
    }
    if |rankings| < 2 {
      return None;
    }
    var n := |rankings|;
    var converted := ConvertTimes(rankings);
    if converted.None? {
      return None;
    }
    var times := converted.value;
    var lastTime := times[n - 1];
    var rows := ByDate(Rows(rankings, times));
    var scores, sortedTimes, dates := Project(rows, RowScore), Project(rows, RowTime), DatesOf(rows);
    var foodCounts := CountFood(scores, lastTime);
    var growthRates := GrowthRates(scores);
    var efficiency := Efficiency(scores, sortedTimes);
    var totalTime, totalFood := Sum(sortedTimes), Sum(foodCounts);
    var maxStreak := LongestPositiveStreak(growthRates);
    var rep := Report(
      scores, sortedTimes, efficiency, growthRates, DateLabels(dates),
      Sum(scores) / n, MinReal(efficiency), n, totalTime, totalFood,
      FoodEfficiency(foodCounts, sortedTimes),
      if totalTime > 0 then totalFood as real / totalTime as real else 0.0,
      maxStreak, foodCounts);
    assert Summarizes(rep, dates, lastTime);
    report := Some(rep);
  }

  /** A time that is not an integer makes the whole conversion fail. */
  lemma ParseTimesFails(rs: seq<Record>, i: int)
    requires 0 <= i < |rs| && ParseInt(rs[i].time).None?
    ensures ParseTimes(rs).None?
  {
  }

  /** The date order is a stable sort: ascending dates, the same rows, and rows with equal dates in history order. */
  lemma ByDateOrdered(rows: seq<Row>)
    ensures SortedBy(ByDate(rows), DateKey)
    ensures multiset(ByDate(rows)) == multiset(rows)
    ensures forall k :: KeyFilter(ByDate(rows), DateKey, k) == KeyFilter(rows, DateKey, k)
  {
    SortByKeySorted(rows, DateKey);
    forall k ensures KeyFilter(ByDate(rows), DateKey, k) == KeyFilter(rows, DateKey, k) {
      SortByKeyStable(rows, DateKey, k);
    }
  }

  /** The columns of the rows built from the history are the history's own scores and times. */
  lemma RowsColumns(rs: seq<Record>, ts: seq<int>)
    requires |ts| == |rs|
    ensures Project(Rows(rs, ts), RowTime) == ts
    ensures Project(Rows(rs, ts), RowScore) == Project(rs, RecordScore)
  {
    ProjectAt(Rows(rs, ts), RowTime);
    ProjectAt(Rows(rs, ts), RowScore);
    ProjectAt(rs, RecordScore);
  }

  /** Sorting by date reorders the scores and times without changing them. */
  lemma ByDateColumns(rs: seq<Record>, ts: seq<int>)
    requires |ts| == |rs|
    ensures multiset(Project(ByDate(Rows(rs, ts)), RowTime)) == multiset(ts)
    ensures multiset(Project(ByDate(Rows(rs, ts)), RowScore)) == multiset(Project(rs, RecordScore))
  {
    var rows := Rows(rs, ts);
    ByDateOrdered(rows);
    ProjectPermutation(ByDate(rows), rows, RowTime);
    ProjectPermutation(ByDate(rows), rows, RowScore);
    RowsColumns(rs, ts);
  }

  /**
   * The totals do not depend on the order: `total_time` is the sum of the
   * times as the history lists them, `avg_score` the floor of the mean of
   * its scores, `total_games` its length.
   */
  lemma AnalysisTotals(rankings: seq<Record>, rep: Report)
    requires Analyzes(rankings, rep)
    ensures rep.totalGames == |rankings|
    ensures rep.totalTime == Sum(ParseTimes(rankings).value)
    ensures rep.avgScore == Sum(Project(rankings, RecordScore)) / |rankings|
  {
    var ts := ParseTimes(rankings).value;
    ByDateColumns(rankings, ts);
    SumPermutation(rep.times, ts);
    SumPermutation(rep.scores, Project(rankings, RecordScore));
  }

  /** The series follow the history sorted by date: entry `i` of each belongs to the `i`-th row of that order. */
  lemma AnalysisOrder(rankings: seq<Record>, rep: Report)
    requires Analyzes(rankings, rep)
    ensures var rows := ByDate(Rows(rankings, ParseTimes(rankings).value));
      SortedBy(rows, DateKey) && |rows| == |rankings| &&
      forall i :: 0 <= i < |rows| ==> rep.scores[i] == rows[i].score && rep.times[i] == rows[i].time
  {
    var rows := ByDate(Rows(rankings, ParseTimes(rankings).value));
    ByDateOrdered(Rows(rankings, ParseTimes(rankings).value));
    ProjectAt(rows, RowScore);
    ProjectAt(rows, RowTime);
  }

  /** Every food estimate is taken against the time of the last record of the unsorted history. */
  lemma AnalysisFood(rankings: seq<Record>, rep: Report)
    requires Analyzes(rankings, rep)
    ensures |rep.foodCounts| == |rep.scores| == |rankings|
    ensures forall i :: 0 <= i < |rep.scores| ==>
      rep.foodCounts[i] == Achievements.FoodCount(rep.scores[i], ParseInt(rankings[|rankings| - 1].time).value)
  {
  }

  /** A positive previous score: the rate is positive exactly when the score rose. */
  lemma GrowthRateSign(prev: int, cur: int)
    ensures prev == 0 ==> GrowthRate(prev, cur) == 0.0
    ensures prev > 0 ==> (GrowthRate(prev, cur) > 0.0 <==> cur > prev)
    ensures prev < 0 ==> (GrowthRate(prev, cur) > 0.0 <==> cur < prev)
  {
    if prev != 0 {
      var d, p := (cur - prev) as real, prev as real;
      var q := d / p;
      assert q * p == d;
      if prev > 0 {
        assert q > 0.0 ==> d > 0.0;
        assert d > 0.0 ==> q > 0.0;
      } else {
        assert q > 0.0 ==> d < 0.0;
        assert d < 0.0 ==> q > 0.0;
      }
    }
  }

  /**
   * One growth rate per game: 0 for the first, 0 after a score of 0, and
   * after a positive score positive exactly when the score rose.
   */
  lemma GrowthRatesMeaning(scores: seq<int>)
    requires |scores| >= 1
    ensures var g := GrowthRates(scores);
      |g| == |scores| && g[0] == 0.0 &&
      forall i :: 1 <= i < |scores| ==>
        (scores[i - 1] == 0 ==> g[i] == 0.0) &&
        (scores[i - 1] > 0 ==> (g[i] > 0.0 <==> scores[i] > scores[i - 1]))
  {
    var g := GrowthRates(scores);
    forall i | 1 <= i < |scores|
      ensures (scores[i - 1] == 0 ==> g[i] == 0.0) && (scores[i - 1] > 0 ==> (g[i] > 0.0 <==> scores[i] > scores[i - 1]))
    {
      GrowthRateSign(scores[i - 1], scores[i]);
    }
  }

  /**
   * With only positive scores a positive growth rate is a rise, so the
   * streak of positive rates is the consecutive growth of the scores.
   */
  lemma PositiveGrowthIsRise(scores: seq<int>, n: int)
    requires |scores| >= 1 && forall i :: 0 <= i < |scores| ==> scores[i] > 0
    requires IsLongestRun(Positives(GrowthRates(scores)[1..]), n)
    ensures IsLongestRun(Rises(scores), n)
  {
    var g := GrowthRates(scores);
    var bs, rs := Positives(g[1..]), Rises(scores);
    assert |bs| == |rs|;
    forall i | 0 <= i < |bs| ensures bs[i] == rs[i] {
      assert g[1..][i] == g[i + 1] == GrowthRate(scores[i], scores[i + 1]);
      assert bs[i] == (g[1..][i] > 0.0);
      GrowthRateSign(scores[i], scores[i + 1]);
    }
    assert bs == rs;
  }

  /** `x / d` times `d` gives back `x`: the rates are the exact quotients. */
  lemma QuotientTimes(x: int, d: int)
    requires d != 0
    ensures (x as real / d as real) * d as real == x as real
  {
  }

  /** An efficiency entry is the seconds per point of its game, 0 for a score of 0. */
  lemma EfficiencyMeaning(scores: seq<int>, times: seq<int>)
    requires |scores| == |times|
    ensures var e := Efficiency(scores, times);
      forall i :: 0 <= i < |scores| ==>
        (scores[i] == 0 ==> e[i] == 0.0) && (scores[i] != 0 ==> e[i] * scores[i] as real == times[i] as real)
  {
    var e := Efficiency(scores, times);
    forall i | 0 <= i < |scores| && scores[i] != 0 ensures e[i] * scores[i] as real == times[i] as real {
      QuotientTimes(times[i], scores[i]);
    }
  }

  /** A food-efficiency entry is the food per second of its game, 0 for a time that is not positive. */
  lemma FoodEfficiencyMeaning(foods: seq<int>, times: seq<int>)
    requires |foods| == |times|
    ensures var e := FoodEfficiency(foods, times);
      forall i :: 0 <= i < |times| ==>
        (times[i] <= 0 ==> e[i] == 0.0) && (times[i] > 0 ==> e[i] * times[i] as real == foods[i] as real)
  {
    var e := FoodEfficiency(foods, times);
    forall i | 0 <= i < |times| && times[i] > 0 ensures e[i] * times[i] as real == foods[i] as real {
      QuotientTimes(foods[i], times[i]);
    }
  }

  /** A label is the game's number, a dot, and the first ten characters of its date. */
  lemma DateLabelsMeaning(dates: seq<string>)
    ensures forall i :: 0 <= i < |dates| ==>
      var num := IntToString(i + 1);
      |DateLabels(dates)[i]| > |num| && DateLabels(dates)[i][..|num|] == num &&
      DateLabels(dates)[i][|num|] == '.' && DateLabels(dates)[i][|num| + 1..] == DatePrefix(dates[i])
  {
  }

  /** What `draw_combined_chart` reports about the chart it drew. */
  datatype ChartInfo = ChartInfo(rect: Rect, totalItems: int, itemsPerView: int)

  /** The games shown on the chart at once. */
  const ITEMS_PER_VIEW := 8

  /** The pygame events the chart reacts to; `button` 1 is the left button, 4 and 5 the wheel. */
  datatype Event = MouseDown(button: int) | MouseMotion | MouseUp(button: int) | OtherEvent

  function MaxOffset(info: ChartInfo): (m: int)
    ensures m >= 0 && m >= info.totalItems - info.itemsPerView
  {
    if info.totalItems - info.itemsPerView > 0 then info.totalItems - info.itemsPerView else 0
  }

  /**
   * The slice `[start, end)` of games `draw_combined_chart` shows for the
   * offset `offset`. An offset within the range that scrolling keeps
   * shows a full view.
   */
  function Window(offset: int, total: nat): (w: (int, int))
    ensures 0 <= w.0 && w.1 <= total && w.1 - w.0 <= ITEMS_PER_VIEW
    ensures 0 <= offset <= MaxOffset(ChartInfo(Rect(0, 0, 0, 0), total, ITEMS_PER_VIEW)) ==>
      w.0 == (if total <= ITEMS_PER_VIEW then 0 else offset) &&
      w.1 - w.0 == (if total < ITEMS_PER_VIEW then total else ITEMS_PER_VIEW)
  {
    if total <= ITEMS_PER_VIEW then (0, total)
    else
      var start := if offset > 0 then offset else 0;
      (if start < total then start else total, if start + ITEMS_PER_VIEW < total then start + ITEMS_PER_VIEW else total)
  }

  /** The scroll state of the statistics screen. */
  class ChartView {
    var chartOffset: int
    var isDragging: bool
    var dragStartX: int
    /** `active_chart == "combined"`; `None` otherwise. */
    var activeCombined: bool

    constructor()
      ensures chartOffset == 0 && !isDragging && dragStartX == 0 && !activeCombined
    {
      chartOffset, isDragging, dragStartX, activeCombined := 0, false, 0, false;
    }

    /**
     * `handle_chart_drag(event, chart_info)` with the mouse at `(mx, my)`.
     * Nothing happens without chart information. The left button starts a
     * drag over the chart and releasing it ends the drag; the wheel over
     * the chart and a drag of more than 15 pixels move the offset by one,
     * never below 0 nor above `MaxOffset(info)`.
     */
    method HandleChartDrag(event: Event, info: Option<ChartInfo>, mx: int, my: int)
      modifies this
      ensures info.None? ==> unchanged(this)
      ensures info.Some? && 0 <= old(chartOffset) <= MaxOffset(info.value) ==> 0 <= chartOffset <= MaxOffset(info.value)
      ensures info.Some? && event == MouseDown(1) && ContainsPoint(info.value.rect, mx, my) ==>
        isDragging && dragStartX == mx && activeCombined && chartOffset == old(chartOffset)
      ensures info.Some? && event == MouseDown(4) && ContainsPoint(info.value.rect, mx, my) ==>
        chartOffset == (if old(chartOffset) - 1 > 0 then old(chartOffset) - 1 else 0) &&
        isDragging == old(isDragging) && dragStartX == old(dragStartX) && activeCombined == old(activeCombined)
      ensures info.Some? && event == MouseDown(5) && ContainsPoint(info.value.rect, mx, my) ==>
        var up := old(chartOffset) + 1;
        chartOffset == (if up < MaxOffset(info.value) then up else MaxOffset(info.value)) &&
        isDragging == old(isDragging) && dragStartX == old(dragStartX) && activeCombined == old(activeCombined)
      ensures info.Some? && event.MouseDown? && !ContainsPoint(info.value.rect, mx, my) ==> unchanged(this)
      ensures info.Some? && event.MouseDown? && event.button !in {1, 4, 5} ==> unchanged(this)
      ensures info.Some? && event == MouseMotion ==>
        var delta := old(dragStartX) - mx;
        if old(isDragging) && old(activeCombined) && (delta > 15 || delta < -15) then
          var moved := old(chartOffset) + (if delta > 0 then 1 else -1);
          var capped := if MaxOffset(info.value) < moved then MaxOffset(info.value) else moved;
          chartOffset == (if capped > 0 then capped else 0) && dragStartX == mx &&
          isDragging && activeCombined
        else unchanged(this)
      ensures info.Some? && event.MouseUp? ==>
        (if event.button == 1 then !isDragging && !activeCombined else isDragging == old(isDragging) && activeCombined == old(activeCombined)) &&
        chartOffset == old(chartOffset) && dragStartX == old(dragStartX)
      ensures info.Some? && event == OtherEvent ==> unchanged(this)
    {
      if info.None? {
        return;
      }
      var maxOffset := MaxOffset(info.value);
      var over := ContainsPoint(info.value.rect, mx, my);
      match event {
        case MouseDown(button) =>
          if button == 1 {
            if over {
              isDragging := true;
              dragStartX := mx;
              activeCombined := true;
            }
          } else if button == 4 {
            if over {
              chartOffset := if chartOffset - 1 > 0 then chartOffset - 1 else 0;
            }
          } else if button == 5 {
            if over {
              chartOffset := if maxOffset < chartOffset + 1 then maxOffset else chartOffset + 1;
            }
          }
        case MouseMotion =>
          if isDragging && activeCombined {
            var dragDelta := dragStartX - mx;
            if dragDelta > 15 || dragDelta < -15 {
              var scrollAmount := if dragDelta > 0 then 1 else -1;
              var capped := if maxOffset < chartOffset + scrollAmount then maxOffset else chartOffset + scrollAmount;
              chartOffset := if capped > 0 then capped else 0;
              dragStartX := mx;
            }
          }
        case MouseUp(button) =>
          if button == 1 {
            isDragging := false;
            activeCombined := false;
          }
        case OtherEvent =>
      }
    }
  }
}
