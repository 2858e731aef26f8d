/** The backend's performance report (`get_performance_analytics`,
    GET /api/performance/{studentId}) and the time-spent refresh
    (`update_time_spent_from_activity`), both computed from one student's
    activity records. */
module PerformanceReport {
  import opened Common
  import opened ActivityLog
  import opened Aggregation

  datatype SubjectScore = SubjectScore(subjectId: string, subject: string, score: int)

  datatype Attendance = Attendance(totalDays: int, presentDays: int)

  /** One row of the daily series: a day and its simulated progress. */
  datatype DayProgress = DayProgress(date: Date, progress: int)

  datatype PerformanceData = PerformanceData(
    subjectScores: seq<SubjectScore>,
    timeSpent: seq<(string, int)>,
    dailyProgress: seq<DayProgress>,
    attendance: Attendance)

  /** The simulated subject score: 70 plus the last bucket's minutes modulo
      30 (0 minutes for an empty log), always within 70..99. */
  function SimulatedScore(logs: seq<LogEntry>): (score: int)
    ensures 70 <= score <= 99
    ensures |logs| == 0 ==> score == 70
    ensures |logs| > 0 ==> (logs[|logs| - 1].durationMinutes - (score - 70)) % 30 == 0
  {
    70 + (if |logs| == 0 then 0 else logs[|logs| - 1].durationMinutes) % 30
  }

  /** The contract of `SimulatedScore` pins the score down: one value in
      70..99 is congruent to the last bucket's minutes, for any minutes. */
  lemma SimulatedScoreIsDetermined(logs: seq<LogEntry>, s: int)
    requires |logs| > 0 && 70 <= s <= 99
    requires (logs[|logs| - 1].durationMinutes - (s - 70)) % 30 == 0
    ensures s == SimulatedScore(logs)
  {
    var m := logs[|logs| - 1].durationMinutes;
    var t := SimulatedScore(logs);
    assert (m - (t - 70)) % 30 == 0;
    assert ((s - 70) - (t - 70)) % 30 == 0 by {
      assert (s - 70) - (t - 70) == (m - (t - 70)) - (m - (s - 70));
    }
  }

  function ProgressDates(rows: seq<DayProgress>): (ds: seq<Date>)
    ensures |ds| == |rows| && forall i :: 0 <= i < |rows| ==> ds[i] == rows[i].date
  {
    seq(|rows|, i requires 0 <= i < |rows| => rows[i].date)
  }

  /** PUT /api/performance/update-time/{studentId}: 404 for a student without
      records; otherwise one row per distinct title, in order of first
      appearance, holding that title's minutes over all its records. The rows
      add up to every minute logged. */
  method UpdateTimeSpent(records: seq<CourseRecord>) returns (status: int, timeSpent: seq<(string, int)>)
    ensures status == 404 <==> records == []
    ensures status == 404 || status == 200
    ensures status == 404 ==> timeSpent == []
    ensures Keys(timeSpent) == Dedupe(Titles(records))
    ensures forall i :: 0 <= i < |timeSpent| ==> timeSpent[i].1 == TitleMinutes(records, timeSpent[i].0)
    ensures Sum(Values(timeSpent)) == GrandTotal(records)
  {
    if |records| == 0 {
      return 404, [];
    }
    var totals: map<string, int> := map[];
    var order: seq<string> := [];
    var i := 0;
    while i < |records|
      invariant 0 <= i <= |records|
      invariant Tallies(totals, order, TitlePairs(records[..i]))
    {
      TitlePairsSnoc(records, i);
      totals, order := AddPair(totals, order, TitlePairs(records[..i]),
                               (records[i].courseTitle, TotalMinutes(records[i].activityLogs)));
      i := i + 1;
    }
    assert records[..i] == records;
    timeSpent := Rows(totals, order);
    assert Keys(timeSpent) == order;
    RowsTotal(totals, order, TitlePairs(records));
    status := 200;
  }

  /** The inner `for log in logs` loop of the report: each bucket's minutes
      are added to the running total of its day. */
  method AddDays(daily: map<Date, int>, order: seq<Date>, logs: seq<LogEntry>, ghost before: seq<(Date, int)>)
    returns (daily': map<Date, int>, order': seq<Date>)
    requires Tallies(daily, order, before)
    ensures Tallies(daily', order', before + EntryPairs(logs))
  {
    daily', order' := daily, order;
    var j := 0;
    assert before + EntryPairs(logs[..0]) == before;
    while j < |logs|
      invariant 0 <= j <= |logs|
      invariant Tallies(daily', order', before + EntryPairs(logs[..j]))
    {
      EntryPairsSnocAfter(before, logs, j);
      daily', order' := AddPair(daily', order', before + EntryPairs(logs[..j]), (logs[j].date, logs[j].durationMinutes));
      j := j + 1;
    }
    assert logs[..j] == logs;
  }

  /** The daily series:
      one row per day, strictly ascending by day. */
  function SortedProgress(daily: map<Date, int>, order: seq<Date>): (rows: seq<DayProgress>)
    requires Distinct(order) && forall d :: d in order ==> d in daily
    ensures |rows| == |order|
    ensures forall i, j :: 0 <= i < j < |rows| ==> rows[i].date < rows[j].date
    ensures forall d :: d in ProgressDates(rows) <==> d in order
    ensures forall i :: 0 <= i < |rows| ==> rows[i].date in daily && rows[i].progress == daily[rows[i].date] / 10
  {
    var days := SortedKeys(order);
    assert forall k :: 0 <= k < |days| ==> days[k] in daily by {
      forall k | 0 <= k < |days| ensures days[k] in daily {
        assert days[k] in order;
      }
    }
    var rows := seq(|days|, k requires 0 <= k < |days| => DayProgress(days[k], daily[days[k]] / 10));
    assert ProgressDates(rows) == days;
    rows
  }

  /** One score per record, in record order. */
  function SubjectScores(records: seq<CourseRecord>): (scores: seq<SubjectScore>)
    ensures |scores| == |records|
    ensures forall i :: 0 <= i < |records| ==>
              scores[i] == SubjectScore(records[i].courseId, records[i].courseTitle, SimulatedScore(records[i].activityLogs))
  {
    seq(|records|, i requires 0 <= i < |records| =>
          SubjectScore(records[i].courseId, records[i].courseTitle, SimulatedScore(records[i].activityLogs)))
  }

  lemma SubjectScoresSnoc(records: seq<CourseRecord>, i: nat)
    requires i < |records|
    ensures SubjectScores(records[..i + 1]) ==
              SubjectScores(records[..i]) +
              [SubjectScore(records[i].courseId, records[i].courseTitle, SimulatedScore(records[i].activityLogs))]
  {
  }

  /** The handler's loop over the student's records: a score and a
      time-spent pair per record, in record order, and the per-day minute
      totals in order of first appearance. */
  method ScanRecords(records: seq<CourseRecord>)
    returns (subjectScores: seq<SubjectScore>, timeSpent: seq<(string, int)>, daily: map<Date, int>, order: seq<Date>)
    ensures |subjectScores| == |records|
    ensures forall i :: 0 <= i < |records| ==>
              subjectScores[i] ==
                SubjectScore(records[i].courseId, records[i].courseTitle, SimulatedScore(records[i].activityLogs))
    ensures timeSpent == TitlePairs(records)
    ensures Tallies(daily, order, DatePairs(records))
  {
    subjectScores := [];
    timeSpent := [];
    daily := map[];
    order := [];
    var i := 0;
    while i < |records|
      invariant 0 <= i <= |records|
      invariant |subjectScores| == i
      invariant subjectScores == SubjectScores(records[..i])
      invariant timeSpent == TitlePairs(records[..i])
      invariant Tallies(daily, order, DatePairs(records[..i]))
    {
      var activity := records[i];
      var logs := activity.activityLogs;
      SubjectScoresSnoc(records, i);
      subjectScores := subjectScores + [SubjectScore(activity.courseId, activity.courseTitle, SimulatedScore(logs))];
      TitlePairsSnoc(records, i);
      timeSpent := timeSpent + [(activity.courseTitle, TotalMinutes(logs))];
      daily, order := AddDays(daily, order, logs, DatePairs(records[..i]));
      DatePairsSnoc(records, i);
      i := i + 1;
    }
    assert records[..i] == records;
  }

  /** GET /api/performance/{studentId}: one simulated score and one
      (title, minutes) row per record (records sharing a title are NOT merged
      here), the daily series sorted strictly ascending by day with progress
      `minutes // 10` per distinct day, and the profile's attendance or, when
      the profile has none, the month's length and the number of distinct
      active days. */
  method GetPerformanceAnalytics(records: seq<CourseRecord>, profileAttendance: Option<Attendance>,
                                 daysInMonth: int) returns (data: PerformanceData)
    ensures |data.subjectScores| == |records|
    ensures forall i :: 0 <= i < |records| ==>
              data.subjectScores[i] ==
                SubjectScore(records[i].courseId, records[i].courseTitle, SimulatedScore(records[i].activityLogs))
    ensures data.timeSpent == TitlePairs(records)
    ensures forall i, j :: 0 <= i < j < |data.dailyProgress| ==>
              data.dailyProgress[i].date < data.dailyProgress[j].date
    ensures forall d :: d in ProgressDates(data.dailyProgress) <==> d in AllDates(records)
    ensures forall i :: 0 <= i < |data.dailyProgress| ==>
              data.dailyProgress[i].progress == DayMinutes(records, data.dailyProgress[i].date) / 10
    ensures profileAttendance.Some? ==> data.attendance == profileAttendance.value
    ensures profileAttendance.None? ==>
              data.attendance == Attendance(daysInMonth, |data.dailyProgress|) &&
              |data.dailyProgress| == |Dedupe(AllDates(records))|
  {
    var subjectScores, timeSpent, daily, order := ScanRecords(records);
    var dailyProgress := SortedProgress(daily, order);
    forall d ensures d in order <==> d in AllDates(records) {
    }
    var attendance := if profileAttendance.Some? then profileAttendance.value
                      else Attendance(daysInMonth, |order|);
    data := PerformanceData(subjectScores, timeSpent, dailyProgress, attendance);
  }
}
