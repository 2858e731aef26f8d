/** The course catalogue page: each course received is normalised so that
    it carries a `coordinating_institute`, and the list shown is filtered by
    a search term and a status. */
module CoursesPage {
  import opened Common
  import opened Text

  /** A course document as the page receives it: string fields by name. */
  type Item = map<string, string>

  /** The institute column under the name the spreadsheet import gave it. */
  const LegacyInstituteKey: string := "\nCo-ordinating Institute"
  const InstituteKey: string := "coordinating_institute"

  /** The normalisation of one received course: the institute is taken from the legacy column when that is set, else
      from the field itself, else empty; every other field is copied. */
  function Normalize(item: Item): (r: Item)
    ensures InstituteKey in r
    ensures Truthy(item, LegacyInstituteKey) ==> r[InstituteKey] == item[LegacyInstituteKey]
    ensures !Truthy(item, LegacyInstituteKey) && Truthy(item, InstituteKey) ==> r[InstituteKey] == item[InstituteKey]
    ensures !Truthy(item, LegacyInstituteKey) && !Truthy(item, InstituteKey) ==> r[InstituteKey] == ""
    ensures forall k :: k != InstituteKey ==> (k in r <==> k in item) && (k in item ==> r[k] == item[k])
  {
    var institute :=
      if Truthy(item, LegacyInstituteKey) then item[LegacyInstituteKey]
      else if Truthy(item, InstituteKey) then item[InstituteKey]
      else "";
    item[InstituteKey := institute]
  }

  /** Normalising a normalised course changes nothing. */
  lemma NormalizeIdempotent(item: Item)
    ensures Normalize(Normalize(item)) == Normalize(item)
  {
    assert InstituteKey != LegacyInstituteKey by {
      assert InstituteKey[0] != LegacyInstituteKey[0];
    }
  }

  /** The courses the page keeps from a response: every item normalised, in
      order, when the body is a list; nothing (the initial empty list) when
      it is not. */
  function ReceivedCourses(body: Option<seq<Item>>): (courses: seq<Item>)
    ensures body.None? ==> courses == []
    ensures body.Some? ==>
              |courses| == |body.value| &&
              forall i :: 0 <= i < |courses| ==> courses[i] == Normalize(body.value[i])
    ensures forall i :: 0 <= i < |courses| ==> InstituteKey in courses[i]
  {
    if body.None? then []
    else seq(|body.value|, i requires 0 <= i < |body.value| => Normalize(body.value[i]))
  }

  /** Normalising keeps every title, so normalised courses filter as the
      raw ones would. */
  lemma NormalizeKeepsTitles(body: seq<Item>)
    requires AllTitled(body)
    ensures AllTitled(ReceivedCourses(Some(body)))
    ensures forall i :: 0 <= i < |body| ==> ReceivedCourses(Some(body))[i]["title"] == body[i]["title"]
  {
    assert "title" != InstituteKey;
  }

  /** The status filter. "upcoming" compares the parsed exam date with
      `now`; `parseDate` stands for `new Date(...)`, `None` for an invalid
      date, which compares false. */
  predicate StatusMatches(course: Item, status: string, now: int, parseDate: string -> Option<int>) {
    status == "all" ||
    (status == "active" && "course_type" in course && course["course_type"] == "New") ||
    (status == "completed" && "course_type" in course && course["course_type"] == "Rerun") ||
    (status == "upcoming" && "exam_date" in course &&
       parseDate(course["exam_date"]).Some? && parseDate(course["exam_date"]).value > now)
  }

  /** Both conditions of the filter for a course that has a title. */
  predicate Keep(course: Item, term: string, status: string, now: int, parseDate: string -> Option<int>)
    requires "title" in course
  {
    MatchesSearch(course["title"], term) && StatusMatches(course, status, now, parseDate)
  }

  predicate AllTitled(courses: seq<Item>) {
    forall i :: 0 <= i < |courses| ==> "title" in courses[i]
  }

  /** `filteredCourses`. `course.title.toLowerCase()` throws on a course
      without a title, so such a course makes the whole list fail (`None`);
      otherwise the list keeps, in order, exactly the courses whose title
      contains the term, case ignored, and whose status matches. */
  function FilteredCourses(courses: seq<Item>, term: string, status: string, now: int,
                           parseDate: string -> Option<int>): (r: Option<seq<Item>>)
    ensures r.None? <==> !AllTitled(courses)
    ensures r.Some? ==> IsSubsequence(r.value, courses)
    ensures r.Some? ==> forall c :: c in r.value <==>
              c in courses && "title" in c && MatchesSearch(c["title"], term) && StatusMatches(c, status, now, parseDate)
    ensures r.Some? ==> forall c ::
              multiset(r.value)[c] ==
                (if "title" in c && MatchesSearch(c["title"], term) && StatusMatches(c, status, now, parseDate)
                 then multiset(courses)[c] else 0)
  {
    if !AllTitled(courses) then None
    else Some(Filter(courses, (c: Item) => "title" in c && Keep(c, term, status, now, parseDate)))
  }

  /** With status "all" and an empty term every course is shown, in order. */
  lemma {:induction false} AllAndEmptyShowEverything(courses: seq<Item>, now: int, parseDate: string -> Option<int>)
    requires AllTitled(courses)
    ensures FilteredCourses(courses, "", "all", now, parseDate) == Some(courses)
  {
    var p := (c: Item) => "title" in c && Keep(c, "", "all", now, parseDate);
    forall i | 0 <= i < |courses| ensures p(courses[i]) {
      EmptyIncludedEverywhere(ToLower(courses[i]["title"]));
    }
    FilterKeepsAll(courses, p);
  }

  /** A status the filter does not know shows nothing. */
  lemma UnknownStatusShowsNothing(courses: seq<Item>, term: string, status: string, now: int,
                                  parseDate: string -> Option<int>)
    requires AllTitled(courses)
    requires status != "all" && status != "active" && status != "completed" && status != "upcoming"
    ensures FilteredCourses(courses, term, status, now, parseDate) == Some([])
  {
    var r := FilteredCourses(courses, term, status, now, parseDate).value;
    assert forall c :: c !in r;
    assert multiset(r) == multiset{};
  }

  /** "active" shows only new courses and "completed" only reruns. */
  lemma ActiveAndCompleted(courses: seq<Item>, term: string, now: int, parseDate: string -> Option<int>)
    requires AllTitled(courses)
    ensures forall c :: c in FilteredCourses(courses, term, "active", now, parseDate).value ==>
              c["course_type"] == "New"
    ensures forall c :: c in FilteredCourses(courses, term, "completed", now, parseDate).value ==>
              c["course_type"] == "Rerun"
  {
  }
}
