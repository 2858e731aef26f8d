/** The performance-analytics page: from the activity records the backend
    returns it builds the minutes per course, the minutes per day and the
    number of active study days. */
module PerformanceAnalyticsPage {
  import opened Common
  import opened ActivityLog
  import opened Aggregation

  /** The inner `forEach` over one record's log: each bucket's minutes go to
      the record's running total and to its day in `dateMap`. */
  method AddEntries(dateMap: map<Date, int>, dateOrder: seq<Date>, logs: seq<LogEntry>, ghost before: seq<(Date, int)>)
    returns (dateMap': map<Date, int>, dateOrder': seq<Date>, totalDuration: int)
    requires Tallies(dateMap, dateOrder, before)
    ensures Tallies(dateMap', dateOrder', before + EntryPairs(logs))
    ensures totalDuration == TotalMinutes(logs)
  {
    dateMap', dateOrder' := dateMap, dateOrder;
    totalDuration := 0;
    var j := 0;
    assert before + EntryPairs(logs[..0]) == before;
    while j < |logs|
      invariant 0 <= j <= |logs|
      invariant totalDuration == TotalMinutes(logs[..j])
      invariant Tallies(dateMap', dateOrder', before + EntryPairs(logs[..j]))
    {
      var entry := logs[j];
      TotalMinutesSnoc(logs, j);
      totalDuration := totalDuration + entry.durationMinutes;
      EntryPairsSnocAfter(before, logs, j);
      dateMap', dateOrder' := AddPair(dateMap', dateOrder', before + EntryPairs(logs[..j]), (entry.date, entry.durationMinutes));
      j := j + 1;
    }
    assert logs[..j] == logs;
  }

  /** The outer `forEach` over the records: `courseMap` sums each record's
      minutes under its title (records sharing a title are merged) and
      `dateMap` sums every bucket's minutes under its day. */
  method AggregateActivity(records: seq<CourseRecord>)
    returns (courseMap: map<string, int>, courseOrder: seq<string>, dateMap: map<Date, int>, dateOrder: seq<Date>)
    ensures Tallies(courseMap, courseOrder, TitlePairs(records))
    ensures Tallies(dateMap, dateOrder, DatePairs(records))
  {
    courseMap, courseOrder, dateMap, dateOrder := map[], [], map[], [];
    var i := 0;
    while i < |records|
      invariant 0 <= i <= |records|
      invariant Tallies(courseMap, courseOrder, TitlePairs(records[..i]))
      invariant Tallies(dateMap, dateOrder, DatePairs(records[..i]))
    {
      var log := records[i];
      var totalDuration;
      dateMap, dateOrder, totalDuration := AddEntries(dateMap, dateOrder, log.activityLogs, DatePairs(records[..i]));
      DatePairsSnoc(records, i);
      TitlePairsSnoc(records, i);
      courseMap, courseOrder := AddPair(courseMap, courseOrder, TitlePairs(records[..i]), (log.courseTitle, totalDuration));
      i := i + 1;
    }
    assert records[..i] == records;
  }

  /** The course chart: one row per distinct title, in order of first
      appearance, with the minutes of every record bearing it; the rows add
      up to every minute logged. */
  function CourseProgress(records: seq<CourseRecord>): (rows: seq<(string, int)>)
    ensures Keys(rows) == Dedupe(Titles(records))
    ensures forall i :: 0 <= i < |rows| ==> rows[i].1 == TitleMinutes(records, rows[i].0)
    ensures Sum(Values(rows)) == GrandTotal(records)
  {
    GroupBy(TitlePairs(records))
  }

  /** The days with logged minutes, each once, ascending. */
  function ActiveDays(records: seq<CourseRecord>): (days: seq<Date>)
    ensures Distinct(days) && |days| == |Dedupe(AllDates(records))|
    ensures forall d :: d in days <==> d in AllDates(records)
    ensures forall i, j :: 0 <= i < j < |days| ==> days[i] < days[j]
  {
    SortedKeys(Dedupe(AllDates(records)))
  }

  /** Minutes per day across every course, for the days with a bucket. */
  function DayMap(records: seq<CourseRecord>): (m: map<Date, int>)
    ensures forall d :: d in m <==> d in AllDates(records)
    ensures forall d :: d in m ==> m[d] == DayMinutes(records, d)
  {
    map d | d in AllDates(records) :: DayMinutes(records, d)
  }

  /** One row per active day, ascending, adds up to every minute logged. */
  lemma DayRowsTotal(records: seq<CourseRecord>)
    ensures Sum(Values(Rows(DayMap(records), ActiveDays(records)))) == GrandTotal(records)
  {
    var days := ActiveDays(records);
    var pairs := DatePairs(records);
    forall i | 0 <= i < |pairs| ensures pairs[i].0 in days {
      assert Keys(pairs)[i] == pairs[i].0;
    }
    RowsTotalAnyOrder(DayMap(records), days, pairs);
    DayPairsCarryGrandTotal(records);
  }

  /** Rows with their keys replaced by display labels. */
  function LabelRows(rows: seq<(Date, int)>, dayLabel: Date -> string): (r: seq<(string, int)>)
    ensures |r| == |rows| && forall i :: 0 <= i < |rows| ==> r[i] == (dayLabel(rows[i].0), rows[i].1)
    ensures Values(r) == Values(rows)
  {
    seq(|rows|, i requires 0 <= i < |rows| => (dayLabel(rows[i].0), rows[i].1))
  }

  /** The daily chart: one row per active day, ascending by day, labelled by
      `dayLabel` and holding that day's minutes across every course; the rows
      add up to every minute logged. */
  function DailyProgress(records: seq<CourseRecord>, dayLabel: Date -> string): (rows: seq<(string, int)>)
    ensures |rows| == |ActiveDays(records)|
    ensures forall i :: 0 <= i < |rows| ==>
              rows[i] == (dayLabel(ActiveDays(records)[i]), DayMinutes(records, ActiveDays(records)[i]))
    ensures Sum(Values(rows)) == GrandTotal(records)
  {
    DayRowsTotal(records);
    LabelRows(Rows(DayMap(records), ActiveDays(records)), dayLabel)
  }

  /** The day rows of a finished `dateMap`, taken in ascending order, are
      the rows of the active days. */
  lemma DateMapRows(dateMap: map<Date, int>, dateOrder: seq<Date>, records: seq<CourseRecord>)
    requires Tallies(dateMap, dateOrder, DatePairs(records))
    ensures Distinct(dateOrder) && forall d :: d in dateOrder ==> d in dateMap
    ensures Rows(dateMap, SortedKeys(dateOrder)) == Rows(DayMap(records), ActiveDays(records))
  {
    assert dateOrder == Dedupe(AllDates(records));
  }

  datatype EngagementMetric = EngagementMetric(metric: string, value: int, goal: int)

  /** "Active Study Days": the number of distinct labels among the daily
      rows, against the number of days of the month. */
  function ActiveStudyDays(daily: seq<(string, int)>, daysInMonth: int): (e: EngagementMetric)
    ensures e.metric == "Active Study Days" && e.goal == daysInMonth
    ensures e.value <= |daily|
    ensures |daily| > 0 ==> e.value >= 1
    ensures Distinct(Keys(daily)) ==> e.value == |daily|
    ensures e.value == |set i | 0 <= i < |daily| :: daily[i].0|
  {
    var labels := Keys(daily);
    DedupeSize(labels);
    assert (set i | 0 <= i < |daily| :: daily[i].0) == (set x | x in labels) by {
      forall x | x in labels ensures x in (set i | 0 <= i < |daily| :: daily[i].0) {
        var i :| 0 <= i < |labels| && labels[i] == x;
        assert daily[i].0 == x;
      }
    }
    assert Distinct(labels) ==> Dedupe(labels) == labels by {
      if Distinct(labels) {
        DedupeOfDistinct(labels);
      }
    }
    assert |daily| > 0 ==> labels[0] in Dedupe(labels);
    EngagementMetric("Active Study Days", |Dedupe(labels)|, daysInMonth)
  }

  /** When the label of a day tells days apart, the page counts as many
      active study days as the backend's attendance fallback counts
      present days: the number of distinct days with a bucket. */
  lemma {:induction false} ActiveDaysMatchBackend(records: seq<CourseRecord>, dayLabel: Date -> string, daysInMonth: int)
    requires forall d1, d2 :: d1 != d2 ==> dayLabel(d1) != dayLabel(d2)
    ensures ActiveStudyDays(DailyProgress(records, dayLabel), daysInMonth).value == |Dedupe(AllDates(records))|
  {
    var daily := DailyProgress(records, dayLabel);
    var days := ActiveDays(records);
    forall i, j | 0 <= i < j < |daily| ensures Keys(daily)[i] != Keys(daily)[j] {
      assert Keys(daily)[i] == dayLabel(days[i]) && Keys(daily)[j] == dayLabel(days[j]);
    }
  }

  /** The two charts show the same minutes: the course rows and the day rows
      each add up to every minute logged. */
  lemma ChartsAgree(records: seq<CourseRecord>, dayLabel: Date -> string)
    ensures Sum(Values(CourseProgress(records))) == Sum(Values(DailyProgress(records, dayLabel)))
    ensures Sum(Values(CourseProgress(records))) == GrandTotal(records)
  {
  }

  /** The maps filled, then listed: the course rows in insertion order,
      the day rows ascending by day. */
  method ChartRows(records: seq<CourseRecord>, dayLabel: Date -> string)
    returns (courseProgressArr: seq<(string, int)>, dailyProgressArr: seq<(string, int)>)
    ensures courseProgressArr == CourseProgress(records)
    ensures dailyProgressArr == DailyProgress(records, dayLabel)
  {
    var courseMap, courseOrder, dateMap, dateOrder := AggregateActivity(records);
    RowsOfTallies(courseMap, courseOrder, TitlePairs(records));
    courseProgressArr := Rows(courseMap, courseOrder);
    DateMapRows(dateMap, dateOrder, records);
    dailyProgressArr := LabelRows(Rows(dateMap, SortedKeys(dateOrder)), dayLabel);
  }

  /** The metric list after a report: the active-study-days metric when
      there is at least one day; with no day the list is not touched, so
      the previous metric stays. */
  function MetricsAfter(previous: seq<EngagementMetric>, daily: seq<(string, int)>, daysInMonth: int)
    : (metrics: seq<EngagementMetric>)
    ensures |daily| > 0 ==> metrics == [ActiveStudyDays(daily, daysInMonth)]
    ensures |daily| == 0 ==> metrics == previous
  {
    if |daily| > 0 then [ActiveStudyDays(daily, daysInMonth)] else previous
  }

  /** What the performance request ends in: the error body, or a report
      whose `courseActivityLogs` may be absent. */
  datatype Response = ErrorResponse | Report(courseActivityLogs: Option<seq<CourseRecord>>)

  /** The logs a report carries; `?.forEach` skips an absent list. */
  function LogsOf(response: Response): (records: seq<CourseRecord>)
    requires response.Report?
    ensures response.courseActivityLogs.None? ==> records == []
    ensures response.courseActivityLogs.Some? ==> records == response.courseActivityLogs.value
  {
    if response.courseActivityLogs.None? then [] else response.courseActivityLogs.value
  }

  /** The page state the fetch fills. */
  class PerformanceAnalyticsView {
    var courseProgressData: seq<(string, int)>
    var timeSpentData: seq<(string, int)>
    var dailyProgressData: seq<(string, int)>
    var engagementMetrics: seq<EngagementMetric>

    constructor()
      ensures courseProgressData == [] && timeSpentData == [] && dailyProgressData == []
      ensures engagementMetrics == []
    {
      courseProgressData, timeSpentData, dailyProgressData := [], [], [];
      engagementMetrics := [];
    }

    /** `fetchData`: an error body changes nothing; otherwise both course
        charts get the course rows and the daily chart the day rows, and the
        engagement metric is set only when there is at least one day, so a
        report without days leaves the previous metric in place. */
    method FetchData(response: Response, dayLabel: Date -> string, daysInMonth: int)
      modifies this
      ensures response.ErrorResponse? ==>
                courseProgressData == old(courseProgressData) && timeSpentData == old(timeSpentData) &&
                dailyProgressData == old(dailyProgressData) && engagementMetrics == old(engagementMetrics)
      ensures response.Report? ==>
                courseProgressData == CourseProgress(LogsOf(response)) &&
                timeSpentData == courseProgressData &&
                dailyProgressData == DailyProgress(LogsOf(response), dayLabel)
      ensures response.Report? ==>
                engagementMetrics == MetricsAfter(old(engagementMetrics), dailyProgressData, daysInMonth)
    {
      if response.Report? {
        var courseProgressArr, dailyProgressArr := ChartRows(LogsOf(response), dayLabel);
        courseProgressData, timeSpentData, dailyProgressData := courseProgressArr, courseProgressArr, dailyProgressArr;
        engagementMetrics := MetricsAfter(engagementMetrics, dailyProgressArr, daysInMonth);
      }
    }
  }
}
