/** The backend's course activity records (collection `course_activity_logs`)
    and the two handlers that write them: `add_course_activity`
    (POST /api/activity) and `update_course_activity`
    (PUT /api/activity/{studentId}/{courseId}). One record per
    (student, course) pair holds a log of per-day minute buckets. */
module ActivityLog {
  import opened Common

  /** A calendar day, as an abstract ordered key (a day number). */
  type Date = int

  /** One day's bucket: minutes studied on `date`. */
  datatype LogEntry = LogEntry(date: Date, durationMinutes: int)

  datatype CourseRecord = CourseRecord(
    studentId: string,
    courseId: string,
    courseTitle: string,
    origin: string,
    joinLink: string,
    activityLogs: seq<LogEntry>,
    lastAccessed: int)

  /** An HTTP status together with the collection after the request. */
  datatype Outcome = Outcome(status: int, records: seq<CourseRecord>)

  function Durations(logs: seq<LogEntry>): (ds: seq<int>)
    ensures |ds| == |logs| && forall i :: 0 <= i < |logs| ==> ds[i] == logs[i].durationMinutes
  {
    seq(|logs|, i requires 0 <= i < |logs| => logs[i].durationMinutes)
  }

  /** Minutes over a whole log: the sum of its buckets' minutes. */
  function TotalMinutes(logs: seq<LogEntry>): int {
    Sum(Durations(logs))
  }

  /** A log's total grows by each bucket's minutes, one bucket at a time. */
  lemma TotalMinutesSnoc(logs: seq<LogEntry>, j: nat)
    requires j < |logs|
    ensures TotalMinutes(logs[..j + 1]) == TotalMinutes(logs[..j]) + logs[j].durationMinutes
  {
    assert Durations(logs[..j + 1])[..j] == Durations(logs[..j]);
  }

  /** The set of days a log has a bucket for. */
  function Days(logs: seq<LogEntry>): set<Date> {
    set i | 0 <= i < |logs| :: logs[i].date
  }

  /** At most one bucket per day. */
  ghost predicate OneBucketPerDay(logs: seq<LogEntry>) {
    forall i, j :: 0 <= i < j < |logs| ==> logs[i].date != logs[j].date
  }

  function IsOn(day: Date): LogEntry -> bool {
    (e: LogEntry) => e.date == day
  }

  /** Add `duration` minutes to the bucket of `today`: the positional `$inc`
      on the first bucket dated `today` when there is one, otherwise a
      `$push` of a new bucket `{today, duration}` at the end. */
  function Upsert(logs: seq<LogEntry>, today: Date, duration: int): (r: seq<LogEntry>)
    ensures TotalMinutes(r) == TotalMinutes(logs) + duration
    ensures Days(r) == Days(logs) + {today}
    ensures today in Days(logs) ==> |r| == |logs|
    ensures today in Days(logs) ==>
              var k := FirstIndex(logs, IsOn(today)).value;
              forall j :: 0 <= j < |logs| ==>
                r[j].date == logs[j].date &&
                r[j].durationMinutes == logs[j].durationMinutes + (if j == k then duration else 0)
    ensures today !in Days(logs) ==> r == logs + [LogEntry(today, duration)]
  {
    match FirstIndex(logs, IsOn(today))
    case Some(i) =>
      var r := logs[i := LogEntry(today, logs[i].durationMinutes + duration)];
      assert Durations(r) == Durations(logs)[i := Durations(logs)[i] + duration];
      SumUpdate(Durations(logs), i, duration);
      assert Days(r) == Days(logs) by {
        forall d | d in Days(logs) ensures d in Days(r) {
          var j :| 0 <= j < |logs| && logs[j].date == d;
          assert r[j].date == d;
        }
      }
      r
    case None =>
      var r := logs + [LogEntry(today, duration)];
      assert Durations(r) == Durations(logs) + [duration];
      SumAppend(Durations(logs), [duration]);
      assert Sum([duration]) == duration by {
        assert [duration][..0] == [];
      }
      assert Days(r) == Days(logs) + {today} by {
        assert r[|logs|].date == today;
        forall d | d in Days(logs) ensures d in Days(r) {
          var j :| 0 <= j < |logs| && logs[j].date == d;
          assert r[j].date == d;
        }
      }
      r
  }

  /** The upsert never creates a second bucket for a day. */
  lemma UpsertKeepsOneBucketPerDay(logs: seq<LogEntry>, today: Date, duration: int)
    requires OneBucketPerDay(logs)
    ensures OneBucketPerDay(Upsert(logs, today, duration))
  {
    var r := Upsert(logs, today, duration);
    if today !in Days(logs) {
      forall i, j | 0 <= i < j < |r| ensures r[i].date != r[j].date {
        if j == |logs| {
          assert logs[i].date in Days(logs);
        }
      }
    }
  }

  /** A record belongs to the pair (studentId, courseId). */
  function IsPair(studentId: string, courseId: string): CourseRecord -> bool {
    (r: CourseRecord) => r.studentId == studentId && r.courseId == courseId
  }

  /** The filter of the first update: the pair and a bucket dated `today`. */
  function IsPairOn(studentId: string, courseId: string, today: Date): CourseRecord -> bool {
    (r: CourseRecord) => r.studentId == studentId && r.courseId == courseId && today in Days(r.activityLogs)
  }

  /** At most one record per (student, course) pair. */
  ghost predicate UniquePairs(records: seq<CourseRecord>) {
    forall i, j :: 0 <= i < j < |records| ==>
      !(records[i].studentId == records[j].studentId && records[i].courseId == records[j].courseId)
  }

  /** The requested minutes, 0 when the body has none. */
  function RequestedDuration(durationMinutes: Option<int>): int {
    if durationMinutes.Some? then durationMinutes.value else 0
  }

  /** The record `update_one` changes: the first one of the pair with a bucket
      for `today`, else the first one of the pair. */
  function UpdateTarget(records: seq<CourseRecord>, studentId: string, courseId: string, today: Date): (t: Option<nat>)
    ensures t.Some? ==> t.value < |records| && IsPair(studentId, courseId)(records[t.value])
    ensures t.None? <==> FirstIndex(records, IsPair(studentId, courseId)).None?
  {
    match FirstIndex(records, IsPairOn(studentId, courseId, today))
    case Some(i) => Some(i)
    case None => FirstIndex(records, IsPair(studentId, courseId))
  }

  /** The record at `i` with `duration` minutes upserted for `today` and
      `lastAccessed` set to `now`; every other record as it was. */
  function Touch(records: seq<CourseRecord>, i: nat, today: Date, duration: int, now: int): (rs: seq<CourseRecord>)
    requires i < |records|
    ensures |rs| == |records|
    ensures rs[i].activityLogs == Upsert(records[i].activityLogs, today, duration)
    ensures TotalMinutes(rs[i].activityLogs) == TotalMinutes(records[i].activityLogs) + duration
    ensures rs[i].lastAccessed == now
    ensures rs[i].(activityLogs := records[i].activityLogs, lastAccessed := records[i].lastAccessed) == records[i]
    ensures forall j :: 0 <= j < |records| && j != i ==> rs[j] == records[j]
  {
    records[i := records[i].(activityLogs := Upsert(records[i].activityLogs, today, duration), lastAccessed := now)]
  }

  /** `update_course_activity` on the collection. A missing or non-positive
      duration is a 400 and a pair without a record a 404, both changing
      nothing; otherwise the target record's log is upserted for `today`,
      its `lastAccessed` set, its total grows by exactly the duration and
      every other record is untouched. */
  function UpdateActivity(records: seq<CourseRecord>, studentId: string, courseId: string,
                          durationMinutes: Option<int>, today: Date, now: int): (o: Outcome)
    ensures RequestedDuration(durationMinutes) <= 0 ==> o == Outcome(400, records)
    ensures RequestedDuration(durationMinutes) > 0 && FirstIndex(records, IsPair(studentId, courseId)).None? ==>
              o == Outcome(404, records)
    ensures o.status == 200 <==>
              RequestedDuration(durationMinutes) > 0 && FirstIndex(records, IsPair(studentId, courseId)).Some?
    ensures o.status == 200 ==>
              o.records == Touch(records, UpdateTarget(records, studentId, courseId, today).value, today,
                                 RequestedDuration(durationMinutes), now)
  {
    var duration := RequestedDuration(durationMinutes);
    if duration <= 0 then Outcome(400, records)
    else match FirstIndex(records, IsPairOn(studentId, courseId, today))
      case Some(i) =>
        // `$inc` on the first bucket dated today, `$set` lastAccessed
        var logs := records[i].activityLogs;
        var k := FirstIndex(logs, IsOn(today)).value;
        var incremented := logs[k := LogEntry(today, logs[k].durationMinutes + duration)];
        assert incremented == Upsert(logs, today, duration);
        Outcome(200, records[i := records[i].(activityLogs := incremented, lastAccessed := now)])
      case None =>
        match FirstIndex(records, IsPair(studentId, courseId))
        case Some(i) =>
          // `$push` of a new bucket, `$set` lastAccessed
          var pushed := records[i].activityLogs + [LogEntry(today, duration)];
          assert today !in Days(records[i].activityLogs) by {
            assert !IsPairOn(studentId, courseId, today)(records[i]);
          }
          Outcome(200, records[i := records[i].(activityLogs := pushed, lastAccessed := now)])
        case None => Outcome(404, records)
  }

  /** With one record per pair, the update hits that record whichever of the
      two `update_one` calls matched. */
  lemma UpdateHitsThePairsRecord(records: seq<CourseRecord>, studentId: string, courseId: string, today: Date)
    requires UniquePairs(records)
    requires FirstIndex(records, IsPair(studentId, courseId)).Some?
    ensures UpdateTarget(records, studentId, courseId, today) == FirstIndex(records, IsPair(studentId, courseId))
  {
  }

  /** An update never adds, removes or re-keys records, so one record per pair
      survives it. */
  lemma UpdateKeepsPairsUnique(records: seq<CourseRecord>, studentId: string, courseId: string,
                               durationMinutes: Option<int>, today: Date, now: int)
    requires UniquePairs(records)
    ensures UniquePairs(UpdateActivity(records, studentId, courseId, durationMinutes, today, now).records)
  {
    var o := UpdateActivity(records, studentId, courseId, durationMinutes, today, now);
    if o.status == 200 {
      var t := UpdateTarget(records, studentId, courseId, today).value;
      forall j | 0 <= j < |records|
        ensures o.records[j].studentId == records[j].studentId && o.records[j].courseId == records[j].courseId
      {
        if j == t {
          assert o.records[t].(activityLogs := records[t].activityLogs, lastAccessed := records[t].lastAccessed) == records[t];
        }
      }
    }
  }

  const RequiredFields: seq<string> := ["studentId", "courseId", "courseTitle", "origin", "joinLink"]

  predicate HasRequiredFields(body: map<string, string>) {
    forall k :: k in RequiredFields ==> k in body
  }

  /** The record `add_course_activity` inserts: the request's fields and an
      empty log. */
  function NewRecord(body: map<string, string>, now: int): CourseRecord
    requires HasRequiredFields(body)
  {
    CourseRecord(body["studentId"], body["courseId"], body["courseTitle"], body["origin"], body["joinLink"], [], now)
  }

  /** `add_course_activity` on the collection: 400 when a required field is
      missing, 409 when the pair already has a record (both changing
      nothing), otherwise 201 and one new record with an empty log at the end. */
  function AddActivity(records: seq<CourseRecord>, body: map<string, string>, now: int): (o: Outcome)
    ensures !HasRequiredFields(body) ==> o == Outcome(400, records)
    ensures HasRequiredFields(body) && FirstIndex(records, IsPair(body["studentId"], body["courseId"])).Some? ==>
              o == Outcome(409, records)
    ensures o.status == 201 <==>
              HasRequiredFields(body) && FirstIndex(records, IsPair(body["studentId"], body["courseId"])).None?
    ensures o.status == 201 ==>
              |o.records| == |records| + 1 && o.records[..|records|] == records &&
              var added := o.records[|records|];
              added.studentId == body["studentId"] && added.courseId == body["courseId"] &&
              added.courseTitle == body["courseTitle"] && added.origin == body["origin"] &&
              added.joinLink == body["joinLink"] && added.activityLogs == [] && added.lastAccessed == now
  {
    if !HasRequiredFields(body) then Outcome(400, records)
    else if FirstIndex(records, IsPair(body["studentId"], body["courseId"])).Some? then Outcome(409, records)
    else
      var r := records + [NewRecord(body, now)];
      assert r[..|records|] == records;
      Outcome(201, r)
  }

  /** Adding keeps at most one record per (student, course) pair. */
  lemma AddKeepsPairsUnique(records: seq<CourseRecord>, body: map<string, string>, now: int)
    requires UniquePairs(records)
    ensures UniquePairs(AddActivity(records, body, now).records)
  {
    var o := AddActivity(records, body, now);
    if o.status == 201 {
      forall i, j | 0 <= i < j < |o.records|
        ensures !(o.records[i].studentId == o.records[j].studentId && o.records[i].courseId == o.records[j].courseId)
      {
        if j == |records| {
          assert o.records[i] == records[i];
          assert !IsPair(body["studentId"], body["courseId"])(records[i]);
        } else {
          assert o.records[i] == records[i] && o.records[j] == records[j];
        }
      }
    }
  }

  /** The collection as a mutable store, with the two write handlers. */
  class ActivityStore {
    var records: seq<CourseRecord>

    ghost predicate Valid()
      reads this
    {
      UniquePairs(records)
    }

    constructor ()
      ensures Valid() && records == []
    {
      records := [];
    }

    /** PUT /api/activity/{studentId}/{courseId}. */
    method UpdateCourseActivity(studentId: string, courseId: string, durationMinutes: Option<int>,
                                today: Date, now: int) returns (status: int)
      requires Valid()
      modifies this
      ensures Valid()
      ensures Outcome(status, records) == UpdateActivity(old(records), studentId, courseId, durationMinutes, today, now)
    {
      var duration := RequestedDuration(durationMinutes);
      if duration <= 0 {
        return 400;
      }
      var matched := FirstIndex(records, IsPairOn(studentId, courseId, today));
      if matched.Some? {
        var i := matched.value;
        var logs := records[i].activityLogs;
        var k := FirstIndex(logs, IsOn(today)).value;
        var updated := records[i := records[i].(activityLogs := logs[k := LogEntry(today, logs[k].durationMinutes + duration)],
                                                lastAccessed := now)];
        assert Outcome(200, updated) == UpdateActivity(records, studentId, courseId, durationMinutes, today, now);
        UpdateKeepsPairsUnique(records, studentId, courseId, durationMinutes, today, now);
        records := updated;
        return 200;
      }
      matched := FirstIndex(records, IsPair(studentId, courseId));
      if matched.None? {
        return 404;
      }
      var i := matched.value;
      var updated := records[i := records[i].(activityLogs := records[i].activityLogs + [LogEntry(today, duration)],
                                              lastAccessed := now)];
      assert Outcome(200, updated) == UpdateActivity(records, studentId, courseId, durationMinutes, today, now);
      UpdateKeepsPairsUnique(records, studentId, courseId, durationMinutes, today, now);
      records := updated;
      status := 200;
    }

    /** POST /api/activity. */
    method AddCourseActivity(body: map<string, string>, now: int) returns (status: int)
      requires Valid()
      modifies this
      ensures Valid()
      ensures Outcome(status, records) == AddActivity(old(records), body, now)
    {
      AddKeepsPairsUnique(records, body, now);
      if !HasRequiredFields(body) {
        return 400;
      }
      if FirstIndex(records, IsPair(body["studentId"], body["courseId"])).Some? {
        return 409;
      }
      records := records + [NewRecord(body, now)];
      status := 201;
    }
  }
}
