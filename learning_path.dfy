/** The learning-path page's study-session tracker. The browser's
    `localStorage` is a string-keyed store; opening a course starts a
    session (`startTime-{id}` and `activeCourse`), leaving the window
    re-stamps the start, and returning to it reports the whole minutes since
    the start with one PUT and ends the session. The page also lists the
    student's courses with the minutes logged on each, filtered by title. */
module LearningPath {
  import opened Common
  import opened Text
  import opened ActivityLog

  /** `localStorage`: string keys to string values. */
  type Store = map<string, string>

  const StudentIdKey: string := "studentId"
  const ActiveCourseKey: string := "activeCourse"

  function StartKey(courseId: string): string {
    "startTime-" + courseId
  }

  /** `PUT /api/activity/{studentId}/{courseId}` with body `{durationMinutes}`;
      the two ids are the text the URL template produced. */
  datatype Request = PutActivity(studentId: string, courseId: string, durationMinutes: int)

  /** `localStorage.getItem(k)` inside a template string: a missing key is
      `null`, which prints as "null". */
  function Item(store: Store, k: string): (v: string)
    ensures k in store ==> v == store[k]
    ensures k !in store ==> v == "null"
  {
    if k in store then store[k] else "null"
  }

  /** The whole minutes from `start` to `end`, rounded down also
      for a negative difference. */
  function ElapsedMinutes(start: int, end: int): (m: int)
    ensures 60000 * m <= end - start < 60000 * (m + 1)
  {
    (end - start) / 60000
  }

  /** No start key can be mistaken for either of the fixed keys. */
  lemma StartKeysAreNotFixedKeys(courseId: string)
    ensures StartKey(courseId) != ActiveCourseKey && StartKey(courseId) != StudentIdKey
  {
    assert StartKey(courseId)[1] == 't' && ActiveCourseKey[1] == 'c';
    assert StartKey(courseId)[2] == 'a' && StudentIdKey[2] == 'u';
  }

  /** The store after a handler and the request it sent, if any. */
  datatype Step = Step(store: Store, sent: Option<Request>)

  /** A complete session: a student, an active course and a start for it. */
  predicate InSession(store: Store) {
    Truthy(store, StudentIdKey) && Truthy(store, ActiveCourseKey) &&
    Truthy(store, StartKey(store[ActiveCourseKey]))
  }

  /** The minutes a focus at `now` would report, when the session's start
      parses as a number (`parseInt` giving NaN makes the comparison with 0
      false, so nothing is reported). */
  function PendingMinutes(store: Store, now: int): (m: Option<int>)
    requires InSession(store)
    ensures m.Some? <==> ParseInt(store[StartKey(store[ActiveCourseKey])]).Some?
    ensures m.Some? ==> m.value == ElapsedMinutes(ParseInt(store[StartKey(store[ActiveCourseKey])]).value, now)
  {
    match ParseInt(store[StartKey(store[ActiveCourseKey])])
    case Some(start) => Some(ElapsedMinutes(start, now))
    case None => None
  }

  /** The window's `focus` handler. Without a complete session nothing
      happens. Otherwise the elapsed whole minutes, when positive, go out in
      one PUT for the stored student and course, and both the start key and
      `activeCourse` are removed whether or not the PUT succeeded; when they
      are not positive nothing happens, the stale start staying in place. */
  function Focus(store: Store, now: int): (r: Step)
    ensures !InSession(store) ==> r == Step(store, None)
    ensures r.sent.Some? <==>
              InSession(store) && PendingMinutes(store, now).Some? && PendingMinutes(store, now).value > 0
    ensures r.sent.None? ==> r.store == store
    ensures r.sent.Some? ==>
              var c := store[ActiveCourseKey];
              r.sent.value == PutActivity(store[StudentIdKey], c, PendingMinutes(store, now).value) &&
              r.sent.value.durationMinutes > 0 &&
              r.store == store - {StartKey(c), ActiveCourseKey}
  {
    if !InSession(store) then Step(store, None)
    else
      var c := store[ActiveCourseKey];
      match PendingMinutes(store, now)
      case Some(d) =>
        if d > 0 then Step(store - {StartKey(c), ActiveCourseKey}, Some(PutActivity(store[StudentIdKey], c, d)))
        else Step(store, None)
      case None => Step(store, None)
  }

  /** The window's `blur` handler: with an active course, its start key is
      set to the current time, which reads back as exactly `now`; no other
      key changes. Without one the store is unchanged. */
  function Blur(store: Store, now: nat): (r: Store)
    ensures !Truthy(store, ActiveCourseKey) ==> r == store
    ensures Truthy(store, ActiveCourseKey) ==>
              var k := StartKey(store[ActiveCourseKey]);
              k in r && ParseInt(r[k]) == Some(now) &&
              forall k' :: k' != k ==> (k' in r <==> k' in store) && (k' in store ==> r[k'] == store[k'])
  {
    if Truthy(store, ActiveCourseKey) then
      ParseIntRoundTrip(now);
      store[StartKey(store[ActiveCourseKey]) := NatToString(now)]
    else store
  }

  /** The Join/Continue click handler, with the two course ids it reads kept
      apart: `keyId` names the session in storage and `putId` goes into the
      PUT's path (on this page both are `course.course_id`). The session for
      `keyId` starts at `now`, replacing any active one, and one PUT of 1
      minute is sent for the stored student, whose id prints as "null" when
      missing. */
  function OpenSession(store: Store, keyId: string, putId: string, now: nat): (r: Step)
    ensures ActiveCourseKey in r.store && r.store[ActiveCourseKey] == keyId
    ensures StartKey(keyId) in r.store && ParseInt(r.store[StartKey(keyId)]) == Some(now)
    ensures forall k :: k != ActiveCourseKey && k != StartKey(keyId) ==>
              (k in r.store <==> k in store) && (k in store ==> r.store[k] == store[k])
    ensures r.sent == Some(PutActivity(Item(store, StudentIdKey), putId, 1))
  {
    ParseIntRoundTrip(now);
    StartKeysAreNotFixedKeys(keyId);
    Step(store[StartKey(keyId) := NatToString(now)][ActiveCourseKey := keyId],
         Some(PutActivity(Item(store, StudentIdKey), putId, 1)))
  }

  /** The Join/Continue handler as this page has it: one id for both. */
  function Open(store: Store, courseId: string, now: nat): (r: Step)
    ensures ActiveCourseKey in r.store && r.store[ActiveCourseKey] == courseId
    ensures StartKey(courseId) in r.store && ParseInt(r.store[StartKey(courseId)]) == Some(now)
    ensures forall k :: k != ActiveCourseKey && k != StartKey(courseId) ==>
              (k in r.store <==> k in store) && (k in store ==> r.store[k] == store[k])
    ensures r.sent == Some(PutActivity(Item(store, StudentIdKey), courseId, 1))
  {
    OpenSession(store, courseId, courseId, now)
  }

  // ----- what the handlers do in sequence -----

  /** A reported focus ends the session: focusing again reports nothing. */
  lemma FocusEndsSession(store: Store, now: int, later: int)
    requires Focus(store, now).sent.Some?
    ensures Focus(Focus(store, now).store, later) == Step(Focus(store, now).store, None)
  {
  }

  /** Leaving the window at `tb` and coming back at `tf` reports exactly the
      whole minutes between the two, when there is at least one. */
  lemma {:induction false} BlurThenFocus(store: Store, tb: nat, tf: int)
    requires Truthy(store, StudentIdKey) && Truthy(store, ActiveCourseKey)
    ensures Focus(Blur(store, tb), tf).sent ==
              if ElapsedMinutes(tb, tf) > 0
              then Some(PutActivity(store[StudentIdKey], store[ActiveCourseKey], ElapsedMinutes(tb, tf)))
              else None
  {
    var c := store[ActiveCourseKey];
    StartKeysAreNotFixedKeys(c);
    var b := Blur(store, tb);
    assert b[ActiveCourseKey] == c && b[StudentIdKey] == store[StudentIdKey];
    assert ParseInt(b[StartKey(c)]) == Some(tb);
    assert InSession(b);
  }

  /** Opening a course and coming back at `t1` reports the whole minutes
      since the opening for that course, when the student is known. */
  lemma {:induction false} OpenThenFocus(store: Store, courseId: string, t0: nat, t1: int)
    requires Truthy(store, StudentIdKey) && courseId != ""
    ensures Focus(Open(store, courseId, t0).store, t1).sent ==
              if ElapsedMinutes(t0, t1) > 0
              then Some(PutActivity(store[StudentIdKey], courseId, ElapsedMinutes(t0, t1)))
              else None
  {
    StartKeysAreNotFixedKeys(courseId);
    var o := Open(store, courseId, t0).store;
    assert o[StudentIdKey] == store[StudentIdKey];
  }

  /** Opening a second course before returning replaces the first session:
      the next focus reports only for the second course, and the first
      course's start key is left behind, never reported. */
  lemma {:induction false} OpenSupersedes(store: Store, c1: string, c2: string, t1: nat, t2: nat, tf: int)
    requires c1 != c2
    ensures var s := Open(Open(store, c1, t1).store, c2, t2).store;
            var f := Focus(s, tf);
            s[ActiveCourseKey] == c2 &&
            (f.sent.Some? ==> f.sent.value.courseId == c2) &&
            StartKey(c1) in f.store && ParseInt(f.store[StartKey(c1)]) == Some(t1)
  {
    StartKeysAreNotFixedKeys(c1);
    StartKeysAreNotFixedKeys(c2);
    assert StartKey(c1)[10..] == c1 && StartKey(c2)[10..] == c2;
  }

  /** The backend accepts every minute count a focus reports: it is never
      the 400 for a non-positive duration, and it is a 200 exactly when the
      student has a record for the course. */
  lemma FocusReportIsAccepted(store: Store, now: int, records: seq<CourseRecord>, today: Date, at: int)
    requires Focus(store, now).sent.Some?
    ensures var q := Focus(store, now).sent.value;
            var o := UpdateActivity(records, q.studentId, q.courseId, Some(q.durationMinutes), today, at);
            o.status != 400 &&
            (o.status == 200 <==> FirstIndex(records, IsPair(q.studentId, q.courseId)).Some?)
  {
  }

  // ----- the minutes a student has on a course -----

  /** Minutes on the record of (studentId, courseId), 0 without one. */
  function PairMinutes(records: seq<CourseRecord>, studentId: string, courseId: string): (m: int)
    ensures FirstIndex(records, IsPair(studentId, courseId)).None? ==> m == 0
  {
    match FirstIndex(records, IsPair(studentId, courseId))
    case Some(i) => TotalMinutes(records[i].activityLogs)
    case None => 0
  }

  /** With one record per pair, an accepted PUT of `d` minutes adds exactly
      `d` to that pair's minutes. */
  lemma {:induction false} AcceptedPutAddsMinutes(records: seq<CourseRecord>, studentId: string, courseId: string,
                                                  d: int, today: Date, at: int)
    requires UniquePairs(records)
    requires UpdateActivity(records, studentId, courseId, Some(d), today, at).status == 200
    ensures var o := UpdateActivity(records, studentId, courseId, Some(d), today, at);
            UniquePairs(o.records) &&
            PairMinutes(o.records, studentId, courseId) == PairMinutes(records, studentId, courseId) + d
  {
    var o := UpdateActivity(records, studentId, courseId, Some(d), today, at);
    UpdateHitsThePairsRecord(records, studentId, courseId, today);
    UpdateKeepsPairsUnique(records, studentId, courseId, Some(d), today, at);
    var i := FirstIndex(records, IsPair(studentId, courseId)).value;
    assert IsPair(studentId, courseId)(o.records[i]);
    assert forall j :: 0 <= j < i ==> o.records[j] == records[j];
    assert FirstIndex(o.records, IsPair(studentId, courseId)) == Some(i);
  }

  /** A whole visit: opening the course and returning `t1 - t0` milliseconds
      later, both PUTs accepted, adds 1 plus the reported minutes to the
      student's minutes on the course. */
  lemma {:induction false} VisitAddsUp(records: seq<CourseRecord>, store: Store, courseId: string,
                                       t0: nat, t1: int, today: Date, at: int)
    requires UniquePairs(records) && Truthy(store, StudentIdKey) && courseId != ""
    requires FirstIndex(records, IsPair(store[StudentIdKey], courseId)).Some?
    requires ElapsedMinutes(t0, t1) > 0
    ensures var s := store[StudentIdKey];
            var o1 := UpdateActivity(records, s, courseId, Some(1), today, at);
            var o2 := UpdateActivity(o1.records, s, courseId, Some(ElapsedMinutes(t0, t1)), today, at);
            Focus(Open(store, courseId, t0).store, t1).sent == Some(PutActivity(s, courseId, ElapsedMinutes(t0, t1))) &&
            o2.status == 200 &&
            PairMinutes(o2.records, s, courseId) == PairMinutes(records, s, courseId) + 1 + ElapsedMinutes(t0, t1)
  {
    var s := store[StudentIdKey];
    OpenThenFocus(store, courseId, t0, t1);
    AcceptedPutAddsMinutes(records, s, courseId, 1, today, at);
    var o1 := UpdateActivity(records, s, courseId, Some(1), today, at);
    assert FirstIndex(o1.records, IsPair(s, courseId)).Some? by {
      var i := UpdateTarget(records, s, courseId, today).value;
      assert IsPair(s, courseId)(o1.records[i]);
    }
    AcceptedPutAddsMinutes(o1.records, s, courseId, ElapsedMinutes(t0, t1), today, at);
  }

  // ----- the course list -----

  /** One course of the list as the page builds it from a record returned by
      `GET /api/activity/{studentId}`; the title may be absent. */
  datatype PathItem = PathItem(courseId: string, title: Option<string>, origin: string, joinLink: string,
                               lastAccessed: int, timeSpent: int)

  /** The page's running sum of a record's log: an absent log counts 0 and
      so does a bucket without minutes. */
  function LogMinutes(logs: Option<seq<Option<int>>>): (m: int)
    ensures logs.None? ==> m == 0
  {
    match logs
    case None => 0
    case Some(ds) => ReduceMinutes(ds)
  }

  function ReduceMinutes(ds: seq<Option<int>>): int
    decreases |ds|
  {
    if |ds| == 0 then 0
    else ReduceMinutes(ds[..|ds| - 1]) + (if ds[|ds| - 1].Some? then ds[|ds| - 1].value else 0)
  }

  /** A record's log as the JSON the page receives: every bucket has minutes. */
  function JsonLog(logs: seq<LogEntry>): (j: seq<Option<int>>)
    ensures |j| == |logs| && forall i :: 0 <= i < |logs| ==> j[i] == Some(logs[i].durationMinutes)
  {
    seq(|logs|, i requires 0 <= i < |logs| => Some(logs[i].durationMinutes))
  }

  /** The normalisation of one record into a list item. */
  function PathOf(r: CourseRecord): PathItem {
    PathItem(r.courseId, Some(r.courseTitle), r.origin, r.joinLink, r.lastAccessed,
             LogMinutes(Some(JsonLog(r.activityLogs))))
  }

  /** The page's reduce adds up exactly the minutes the backend holds. */
  lemma {:induction false} ReduceMatchesTotal(logs: seq<LogEntry>)
    ensures ReduceMinutes(JsonLog(logs)) == TotalMinutes(logs)
    decreases |logs|
  {
    if |logs| > 0 {
      var n := |logs| - 1;
      ReduceMatchesTotal(logs[..n]);
      assert JsonLog(logs)[..n] == JsonLog(logs[..n]);
      assert Durations(logs)[..n] == Durations(logs[..n]);
    }
  }

  /** A list item shows the record's total minutes. */
  lemma PathShowsTotal(r: CourseRecord)
    ensures PathOf(r).timeSpent == TotalMinutes(r.activityLogs)
  {
    ReduceMatchesTotal(r.activityLogs);
  }

  /** A course is kept when it has a title containing the term, case ignored. */
  predicate TitleMatches(term: string, p: PathItem) {
    p.title.Some? && MatchesSearch(p.title.value, term)
  }

  /** The filtered list: in order, exactly the courses with a title that
      contains the search term, case ignored. */
  function FilteredPaths(paths: seq<PathItem>, term: string): (r: seq<PathItem>)
    ensures IsSubsequence(r, paths)
    ensures forall p :: p in r <==> p in paths && p.title.Some? && MatchesSearch(p.title.value, term)
  {
    Filter(paths, (p: PathItem) => TitleMatches(term, p))
  }

  /** An empty search keeps every course that has a title. */
  lemma EmptySearchKeepsTitled(paths: seq<PathItem>)
    ensures forall p :: p in FilteredPaths(paths, "") <==> p in paths && p.title.Some?
  {
    forall p: PathItem | p in paths && p.title.Some?
      ensures MatchesSearch(p.title.value, "")
    {
      EmptyIncludedEverywhere(ToLower(p.title.value));
    }
  }

  // ----- the page's tab -----

  /** One browser tab running the page: its `localStorage`, the PUTs it has
      sent and the links it has opened, in order. */
  class BrowserTab {
    var storage: Store
    ghost var sent: seq<Request>
    ghost var links: seq<string>

    constructor(initial: Store)
      ensures storage == initial && sent == [] && links == []
    {
      storage := initial;
      sent := [];
      links := [];
    }

    /** `handleActivityLog`, run on every `focus` event. */
    method OnFocus(now: int)
      modifies this
      ensures var step := Focus(old(storage), now);
              storage == step.store &&
              sent == old(sent) + (if step.sent.Some? then [step.sent.value] else []) &&
              links == old(links)
    {
      if !Truthy(storage, StudentIdKey) || !Truthy(storage, ActiveCourseKey) {
        return;
      }
      var studentId := storage[StudentIdKey];
      var courseId := storage[ActiveCourseKey];
      var key := StartKey(courseId);
      if !Truthy(storage, key) {
        return;
      }
      var start := ParseInt(storage[key]);
      if start.None? {
        return;
      }
      var durationMinutes := ElapsedMinutes(start.value, now);
      if durationMinutes > 0 {
        sent := sent + [PutActivity(studentId, courseId, durationMinutes)];
        storage := storage - {key};
        storage := storage - {ActiveCourseKey};
      }
    }

    /** `handleBlur`, run on every `blur` event. */
    method OnBlur(now: nat)
      modifies this
      ensures storage == Blur(old(storage), now) && sent == old(sent) && links == old(links)
    {
      if Truthy(storage, ActiveCourseKey) {
        ParseIntRoundTrip(now);
        storage := storage[StartKey(storage[ActiveCourseKey]) := NatToString(now)];
      }
    }

    /** The Join/Continue button: start the session, send the 1-minute PUT,
        then open the join link whether or not the PUT failed. */
    method OpenCourse(courseId: string, joinLink: string, now: nat)
      modifies this
      ensures var step := Open(old(storage), courseId, now);
              storage == step.store && sent == old(sent) + [step.sent.value] && links == old(links) + [joinLink]
    {
      var studentId := Item(storage, StudentIdKey);
      storage := storage[StartKey(courseId) := NatToString(now)];
      storage := storage[ActiveCourseKey := courseId];
      sent := sent + [PutActivity(studentId, courseId, 1)];
      links := links + [joinLink];
    }
  }
}
