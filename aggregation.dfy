/** The two groupings every analytics view derives from the activity
    records: minutes per course title and minutes per day. Each is a list
    of (key, minutes) pairs; the views group-by-and-sum these lists. */
module Aggregation {
  import opened Common
  import opened ActivityLog

  /** One (title, minutes-over-the-whole-log) pair per record, in record order. */
  function TitlePairs(records: seq<CourseRecord>): (ps: seq<(string, int)>)
    ensures |ps| == |records|
    ensures forall i :: 0 <= i < |records| ==>
              ps[i] == (records[i].courseTitle, TotalMinutes(records[i].activityLogs))
  {
    seq(|records|, i requires 0 <= i < |records| => (records[i].courseTitle, TotalMinutes(records[i].activityLogs)))
  }

  /** One (date, minutes) pair per bucket of a log, in log order. */
  function EntryPairs(logs: seq<LogEntry>): (ps: seq<(Date, int)>)
    ensures |ps| == |logs|
    ensures forall i :: 0 <= i < |logs| ==> ps[i] == (logs[i].date, logs[i].durationMinutes)
  {
    seq(|logs|, i requires 0 <= i < |logs| => (logs[i].date, logs[i].durationMinutes))
  }

  /** Every bucket of every record as a (date, minutes) pair, record by record. */
  function DatePairs(records: seq<CourseRecord>): seq<(Date, int)>
    decreases |records|
  {
    if |records| == 0 then []
    else DatePairs(records[..|records| - 1]) + EntryPairs(records[|records| - 1].activityLogs)
  }

  function Titles(records: seq<CourseRecord>): seq<string> {
    Keys(TitlePairs(records))
  }

  function AllDates(records: seq<CourseRecord>): seq<Date> {
    Keys(DatePairs(records))
  }

  /** Minutes per title, records sharing a title merged. */
  function TitleMinutes(records: seq<CourseRecord>, title: string): int {
    KeySum(TitlePairs(records), title)
  }

  /** Minutes per day across every course. */
  function DayMinutes(records: seq<CourseRecord>, day: Date): int {
    KeySum(DatePairs(records), day)
  }

  /** Minutes across every bucket of every record. */
  function GrandTotal(records: seq<CourseRecord>): int {
    Sum(Values(TitlePairs(records)))
  }

  lemma TitlePairsSnoc(records: seq<CourseRecord>, i: nat)
    requires i < |records|
    ensures TitlePairs(records[..i + 1]) ==
              TitlePairs(records[..i]) + [(records[i].courseTitle, TotalMinutes(records[i].activityLogs))]
  {
  }

  lemma DatePairsSnoc(records: seq<CourseRecord>, i: nat)
    requires i < |records|
    ensures DatePairs(records[..i + 1]) == DatePairs(records[..i]) + EntryPairs(records[i].activityLogs)
  {
    assert records[..i + 1][..i] == records[..i];
  }

  lemma EntryPairsSnoc(logs: seq<LogEntry>, j: nat)
    requires j < |logs|
    ensures EntryPairs(logs[..j + 1]) == EntryPairs(logs[..j]) + [(logs[j].date, logs[j].durationMinutes)]
  {
  }

  /** The same step with earlier pairs in front. */
  lemma EntryPairsSnocAfter(before: seq<(Date, int)>, logs: seq<LogEntry>, j: nat)
    requires j < |logs|
    ensures before + EntryPairs(logs[..j + 1]) ==
              (before + EntryPairs(logs[..j])) + [(logs[j].date, logs[j].durationMinutes)]
  {
    EntryPairsSnoc(logs, j);
  }

  lemma {:induction false} ValuesOfEntryPairs(logs: seq<LogEntry>)
    ensures Values(EntryPairs(logs)) == Durations(logs)
  {
  }

  lemma ValuesAppend<K>(a: seq<(K, int)>, b: seq<(K, int)>)
    ensures Values(a + b) == Values(a) + Values(b)
  {
  }

  /** Each bucket is counted once by title and once by day, so both
      groupings carry the same total. */
  lemma {:induction false} DayPairsCarryGrandTotal(records: seq<CourseRecord>)
    ensures Sum(Values(DatePairs(records))) == GrandTotal(records)
    decreases |records|
  {
    if |records| > 0 {
      var n := |records| - 1;
      var init := records[..n];
      DayPairsCarryGrandTotal(init);
      assert records == init + [records[n]];
      ValuesAppend(DatePairs(init), EntryPairs(records[n].activityLogs));
      ValuesOfEntryPairs(records[n].activityLogs);
      SumAppend(Values(DatePairs(init)), Durations(records[n].activityLogs));
      assert Values(TitlePairs(records))[..n] == Values(TitlePairs(init));
    }
  }
}
