/** The backend's student dashboard (`GET /api/student-dashboard/{id}`):
    the ongoing-course list and the attendance percentage. */
module StudentDashboardApi {
  import opened ActivityLog
  import opened Rounding

  /** One `ongoingCourses` item, as a JSON object of string fields: the
      record's id under `courseId`, its title, origin and join link. */
  function OngoingCourse(r: CourseRecord): (item: map<string, string>)
    ensures "courseId" in item && item["courseId"] == r.courseId
    ensures "joinLink" in item && item["joinLink"] == r.joinLink
    ensures "course_id" !in item
  {
    map["courseId" := r.courseId, "title" := r.courseTitle, "origin" := r.origin, "joinLink" := r.joinLink]
  }

  /** One item per activity record, in record order. */
  function OngoingCourses(records: seq<CourseRecord>): (items: seq<map<string, string>>)
    ensures |items| == |records| && forall i :: 0 <= i < |records| ==> items[i] == OngoingCourse(records[i])
  {
    seq(|records|, i requires 0 <= i < |records| => OngoingCourse(records[i]))
  }

  /** The backend's percentage: present over total days, rounded half to
      even, and 0 when the total is 0. */
  function BackendAttendancePercent(present: int, total: int): (p: int)
    ensures total == 0 ==> p == 0
    ensures total != 0 ==> p == RoundHalfEven(100 * present, total)
    ensures 0 <= present <= total ==> 0 <= p <= 100
  {
    if total == 0 then 0
    else
      assert 0 <= present <= total ==> 0 <= RoundHalfEven(100 * present, total) <= 100 by {
        if 0 <= present <= total { PercentInRange(present, total); }
      }
      RoundHalfEven(100 * present, total)
  }
}

/** The student dashboard page: the "Go to Course" button, which starts a
    study session like the learning-path page does, and the attendance
    percentage it shows. */
module StudentDashboardPage {
  import opened Common
  import opened ActivityLog
  import opened Text
  import opened Rounding
  import opened LearningPath
  import opened StudentDashboardApi

  /** `course.<k>` in a template string or `setItem`: a missing field is
      `undefined`, which prints as "undefined". */
  function Field(course: map<string, string>, k: string): (v: string)
    ensures k in course ==> v == course[k]
    ensures k !in course ==> v == "undefined"
  {
    if k in course then course[k] else "undefined"
  }

  /** The button as written: the session is keyed by `course.course_id` and
      the PUT goes to `course.courseId`. */
  function GoToCourse(store: Store, course: map<string, string>, now: nat): (r: Step)
    ensures ActiveCourseKey in r.store && r.store[ActiveCourseKey] == Field(course, "course_id")
    ensures StartKey(Field(course, "course_id")) in r.store &&
            ParseInt(r.store[StartKey(Field(course, "course_id"))]) == Some(now)
    ensures forall k :: k != ActiveCourseKey && k != StartKey(Field(course, "course_id")) ==>
              (k in r.store <==> k in store) && (k in store ==> r.store[k] == store[k])
    ensures r.sent == Some(PutActivity(Item(store, StudentIdKey), Field(course, "courseId"), 1))
  {
    OpenSession(store, Field(course, "course_id"), Field(course, "courseId"), now)
  }

  /** On an item the backend sends, the opening PUT names the course but the
      session is keyed "undefined", so when the learning-path page next
      handles a focus, the minutes of the visit are sent for a course called
      "undefined". */
  lemma {:induction false} GoToCourseLosesReturnVisit(store: Store, r: CourseRecord, t0: nat, t1: int)
    requires Truthy(store, StudentIdKey)
    requires ElapsedMinutes(t0, t1) > 0
    ensures var s := store[StudentIdKey];
            var step := GoToCourse(store, OngoingCourse(r), t0);
            step.sent == Some(PutActivity(s, r.courseId, 1)) &&
            Focus(step.store, t1).sent == Some(PutActivity(s, "undefined", ElapsedMinutes(t0, t1)))
  {
    FocusAfterOpenSession(store, "undefined", r.courseId, t0, t1);
  }

  /** A focus after any opening reports for the key the session was opened
      under. */
  lemma {:induction false} FocusAfterOpenSession(store: Store, keyId: string, putId: string, t0: nat, t1: int)
    requires Truthy(store, StudentIdKey) && keyId != ""
    requires ElapsedMinutes(t0, t1) > 0
    ensures Focus(OpenSession(store, keyId, putId, t0).store, t1).sent ==
              Some(PutActivity(store[StudentIdKey], keyId, ElapsedMinutes(t0, t1)))
  {
    StartKeysAreNotFixedKeys(keyId);
    var o := OpenSession(store, keyId, putId, t0).store;
    assert o[StudentIdKey] == store[StudentIdKey];
  }

  /** The backend then rejects those minutes with a 404 and changes
      nothing, unless the student has a course whose id is "undefined". */
  lemma ReturnVisitRejected(records: seq<CourseRecord>, studentId: string, d: int, today: Date, at: int)
    requires d > 0
    requires FirstIndex(records, IsPair(studentId, "undefined")).None?
    ensures UpdateActivity(records, studentId, "undefined", Some(d), today, at) == Outcome(404, records)
  {
  }

  /** The button with the id the backend sends used for both. */
  function GoToCourseFixed(store: Store, course: map<string, string>, now: nat): (r: Step)
    ensures ActiveCourseKey in r.store && r.store[ActiveCourseKey] == Field(course, "courseId")
    ensures StartKey(Field(course, "courseId")) in r.store &&
            ParseInt(r.store[StartKey(Field(course, "courseId"))]) == Some(now)
    ensures forall k :: k != ActiveCourseKey && k != StartKey(Field(course, "courseId")) ==>
              (k in r.store <==> k in store) && (k in store ==> r.store[k] == store[k])
    ensures r.sent == Some(PutActivity(Item(store, StudentIdKey), Field(course, "courseId"), 1))
  {
    OpenSession(store, Field(course, "courseId"), Field(course, "courseId"), now)
  }

  /** Fixed, a visit from the dashboard is counted in full: opening and
      returning add 1 plus the elapsed whole minutes to the course. */
  lemma {:induction false} FixedVisitAddsUp(records: seq<CourseRecord>, store: Store, r: CourseRecord,
                                            t0: nat, t1: int, today: Date, at: int)
    requires UniquePairs(records) && Truthy(store, StudentIdKey) && r.courseId != ""
    requires FirstIndex(records, IsPair(store[StudentIdKey], r.courseId)).Some?
    requires ElapsedMinutes(t0, t1) > 0
    ensures var s := store[StudentIdKey];
            var step := GoToCourseFixed(store, OngoingCourse(r), t0);
            var o1 := UpdateActivity(records, s, r.courseId, Some(1), today, at);
            var o2 := UpdateActivity(o1.records, s, r.courseId, Some(ElapsedMinutes(t0, t1)), today, at);
            step.sent == Some(PutActivity(s, r.courseId, 1)) &&
            Focus(step.store, t1).sent == Some(PutActivity(s, r.courseId, ElapsedMinutes(t0, t1))) &&
            PairMinutes(o2.records, s, r.courseId) == PairMinutes(records, s, r.courseId) + 1 + ElapsedMinutes(t0, t1)
  {
    assert GoToCourseFixed(store, OngoingCourse(r), t0) == Open(store, r.courseId, t0);
    VisitAddsUp(records, store, r.courseId, t0, t1, today, at);
  }

  /** A JavaScript number as far as the percentage can go. */
  datatype JsNumber = Finite(n: int) | NaN | Infinity | NegInfinity

  /** The page's percentage as written: present over total, rounded half
      up, with no guard for a zero total. */
  function AttendancePercentAsWritten(present: int, total: int): (p: JsNumber)
    ensures total != 0 ==> p == Finite(RoundHalfUp(100 * present, total))
  {
    if total == 0 then
      if present > 0 then Infinity else if present < 0 then NegInfinity else NaN
    else Finite(RoundHalfUp(100 * present, total))
  }

  /** A record without attendance (present 0, total 0) shows "NaN% Present",
      where the backend reports 0. */
  lemma ZeroTotalIsNotANumber(present: int)
    ensures !AttendancePercentAsWritten(present, 0).Finite?
    ensures AttendancePercentAsWritten(0, 0) == NaN
    ensures BackendAttendancePercent(present, 0) == 0
  {
  }

  /** The percentage with the backend's guard. */
  function AttendancePercent(present: int, total: int): (p: int)
    ensures total == 0 ==> p == 0
    ensures total != 0 ==> AttendancePercentAsWritten(present, total) == Finite(p)
    ensures 0 <= present <= total ==> 0 <= p <= 100
  {
    if total == 0 then 0
    else
      assert 0 <= present <= total ==> 0 <= RoundHalfUp(100 * present, total) <= 100 by {
        if 0 <= present <= total { PercentInRange(present, total); }
      }
      RoundHalfUp(100 * present, total)
  }

  /** The page and the backend agree except where the ratio is exactly
      halfway, which the page rounds up and the backend to even. */
  lemma {:induction false} PercentAgreesOffTies(present: int, total: int)
    requires total == 0 || !IsTie(100 * present, total)
    ensures AttendancePercent(present, total) == BackendAttendancePercent(present, total)
  {
  }

  /** The "Go to Course" click on a tab showing the dashboard: start the
      session, send the 1-minute PUT, open `course.joinLink`. */
  method OnGoToCourse(tab: BrowserTab, course: map<string, string>, now: nat)
    modifies tab
    ensures var step := GoToCourse(old(tab.storage), course, now);
            tab.storage == step.store && tab.sent == old(tab.sent) + [step.sent.value] &&
            tab.links == old(tab.links) + [Field(course, "joinLink")]
  {
    var studentId := Item(tab.storage, StudentIdKey);
    tab.storage := tab.storage[StartKey(Field(course, "course_id")) := NatToString(now)];
    tab.storage := tab.storage[ActiveCourseKey := Field(course, "course_id")];
    tab.sent := tab.sent + [PutActivity(studentId, Field(course, "courseId"), 1)];
    tab.links := tab.links + [Field(course, "joinLink")];
  }
}
