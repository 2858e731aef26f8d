# Anvesha study tracking, in Dafny

Anvesha is a student-support site with a Flask/Mongo backend and Next.js pages. This project models the parts of it that have behaviour you can state.

- **The study-session tracker.** The learning-path page and the student dashboard use the browser's `localStorage`.
  - Opening a course stores a start time and the active course, and sends a one-minute `PUT /api/activity/{studentId}/{courseId}`.
  - Leaving the window re-stamps the start time.
  - Coming back reports the whole minutes elapsed and clears the session.
- **The backend's activity records.** There is one record per (student, course), and each record holds one bucket of minutes per day.
  - The upsert adds minutes to today's bucket, or appends a new bucket.
  - Adding a record gives 400 when fields are missing and 409 for a duplicate.
  - The groupings of minutes by course title and by day feed the performance report and the time-spent refresh.
- **The backend's statistics.**
  - The age bands of the dashboard statistics and their outcome counts.
  - The scoring, filtering, ranking and limit of course recommendations.
  - The comma-separated top-feature list of the latest report.
  - The attendance percentage and the ongoing-course list of the student dashboard.
- **The pure projections of the pages.**
  - Performance analytics: minutes per course and per day, and the count of active study days.
  - Courses page: the search-and-status filter and the institute normalisation.
  - Dashboard page: the dataset fallback, chart rows, pathway filter, category list and ranked top features.

Where the source updates state in place, the model is imperative:
- `ActivityLog.ActivityStore` holds the collection of records.
- `LearningPath.BrowserTab` holds the tab's storage. The requests it sent and the links it opened are ghost sequences.
- `PerformanceAnalyticsPage.PerformanceAnalyticsView` holds the page's chart state.

The accumulator loops are methods with loop invariants. Each is proved against a specification function over the inputs.

Clocks, today's date, the month's length and date parsing are parameters. Dates are abstract integers ordered as the days they stand for. Integers are unbounded.

## Model

| member | source | states |
|---|---|---|
| `ActivityLog.Upsert` | backend/app.py:616-639 | when today has a bucket, the first bucket dated today grows by the duration and every other bucket, and every date, stays as it was; otherwise a bucket `(today, duration)` is appended; the log's total grows by exactly the duration and its set of days gains today |
| `ActivityLog.UpsertKeepsOneBucketPerDay` | backend/app.py:616-639 | the upsert never creates a second bucket for a day |
| `ActivityLog.UpdateTarget` | backend/app.py:616-634 | the record the update changes belongs to the pair; there is none exactly when the pair has no record |
| `ActivityLog.UpdateActivity` | backend/app.py:604-643 | a missing or non-positive duration gives 400 with nothing changed; no record for the pair gives 404 with nothing changed; otherwise 200, and the collection is that of `Touch` on the record the first matching `update_one` selects |
| `ActivityLog.Touch` | backend/app.py:616-639 | the record written gets its log upserted for today and a new last-access time and keeps every other field; its total grows by exactly the duration; no other record changes |
| `ActivityLog.UpdateHitsThePairsRecord` | backend/app.py:616-639 | with one record per pair, both update attempts hit the pair's only record |
| `ActivityLog.UpdateKeepsPairsUnique` | backend/app.py:616-641 | an update keeps at most one record per (student, course) |
| `ActivityLog.AddActivity` | backend/app.py:571-599 | a missing required field gives 400; an existing record for the pair gives 409; otherwise 201 and one new record is appended, carrying the request's student, course, title, origin and join link, an empty log and the current time as last access |
| `ActivityLog.AddKeepsPairsUnique` | backend/app.py:580-598 | adding keeps at most one record per (student, course) |
| `ActivityLog.ActivityStore.UpdateCourseActivity` | backend/app.py:604-643 | the store's records and the status are those of `UpdateActivity`, and one record per pair is kept |
| `ActivityLog.ActivityStore.AddCourseActivity` | backend/app.py:571-599 | the store's records and the status are those of `AddActivity`, and one record per pair is kept |
| `Aggregation.DayPairsCarryGrandTotal` | backend/app.py:419-429 | the per-day pairs carry the same total minutes as the per-record totals |
| `PerformanceReport.SimulatedScoreIsDetermined` | backend/app.py:406-411 | any value in 70..99 meeting the score's congruence with the last bucket's minutes is the simulated score, so the contract fixes it for every minute count |
| `PerformanceReport.SimulatedScore` | backend/app.py:406-411 | the score is 70 for an empty log, otherwise the one value in 70..99 congruent modulo 30 to 70 plus the last bucket's minutes (Python's floor modulo, negatives included) |
| `PerformanceReport.UpdateTimeSpent` | backend/app.py:488-506 | 404 exactly when there are no records; otherwise one row per distinct title in first-appearance order, holding the minutes of every record with that title; the rows add up to every minute logged |
| `PerformanceReport.AddDays` | backend/app.py:425-429 | adding a log's buckets to a running per-day sum gives the per-day sum of everything seen so far plus that log |
| `PerformanceReport.ScanRecords` | backend/app.py:402-429 | one simulated score and one (title, minutes) row per record, in record order, and the per-day sums of every bucket in first-appearance order |
| `PerformanceReport.SortedProgress` | backend/app.py:431-437 | one row per day, strictly ascending by day, with progress equal to the day's minutes divided by 10, rounded down |
| `PerformanceReport.GetPerformanceAnalytics` | backend/app.py:389-446 | one simulated score and one (title, minutes) row per record; the daily series covers exactly the days with buckets, strictly ascending, with each day's minutes across all courses divided by 10; without profile attendance, present days are the number of distinct active days |
| `DashboardStats.BucketOf` | backend/app.py:119-126 | the five age bands cover every age without overlap: under 18, 18-22, 23-26, 27-30, 31 and over |
| `DashboardStats.BucketsPartition` | backend/app.py:118-127 | the band sizes add up to the number of documents |
| `DashboardStats.BucketTargets` | backend/app.py:110-127 | each band's list holds the targets of exactly its documents, in document order |
| `DashboardStats.OnesCount` | backend/app.py:131-133 | counting one per occurrence gives each target's number of occurrences |
| `DashboardStats.CountTargets` | backend/app.py:130-134 | one row per distinct target in first-appearance order, holding its number of occurrences; the rows add up to the band's size |
| `DashboardStats.CountRows` | backend/app.py:129-134 | the finished count lists each distinct target once with its occurrences, adding up to the band's size |
| `DashboardStats.AgeVsDropout` | backend/app.py:129-134 | five rows in band order, each with its outcome counts, each adding up to its band's size |
| `DashboardStats.AgeCountsCoverAllDocs` | backend/app.py:118-134 | over the five bands, the outcome counts add up to the number of documents |
| `LatestReport.TopFeaturesList` | backend/app.py:55-58 | an empty text gives no names; otherwise one trimmed, comma-free name per comma-separated piece |
| `LatestReport.TopFeaturesRoundTrip` | backend/app.py:55-58 | trimmed, comma-free names joined by commas come back as the same list |
| `Recommendation.JoinedProfile` | backend/app.py:730-745 | the profile's disciplines, domains and levels are exactly the non-empty ones of the catalogue courses the student joined |
| `Recommendation.Score` | backend/app.py:750-758 | the score counts the matches among discipline, domain and level, lies in 0..3, is 0 exactly when none matches and 3 exactly when all three match |
| `Recommendation.Candidates` | backend/app.py:749-759 | the candidates are exactly the catalogue courses that are not joined and score above 0, kept in catalogue order |
| `Recommendation.Ranked` | backend/app.py:760 | the ranking is a permutation of the candidates with non-increasing scores |
| `Recommendation.Take` | backend/app.py:761 | at most the first ten, and all of them when there are fewer; never more copies of a course than the input has |
| `Recommendation.Recommend` | backend/app.py:748-762 | exactly ten courses, or every candidate when there are fewer, each from the catalogue, not joined and scoring 1..3, in non-increasing score order, and no course more often than among the candidates; a candidate left out means ten were returned, each scoring at least as well |
| `Recommendation.TopTenOfCandidates` | backend/app.py:748-762 | the first ten of any non-increasing permutation of the candidates are ten courses, or all candidates when there are fewer, unjoined catalogue courses scoring 1..3, in score order, none repeated beyond its count among the candidates, and a candidate left out means ten were kept, each scoring at least as well |
| `Recommendation.TopOfRanked` | backend/app.py:760-761 | the first n of a ranking score at least as well as anything left out |
| `Recommendation.NoJoinedCourse` | backend/app.py:749 | a joined course id is never recommended |
| `Recommendation.NothingJoinedNothingRecommended` | backend/app.py:730-759 | a student who joined nothing gets no recommendations |
| `StudentDashboardApi.OngoingCourse` | backend/app.py:675-684 | an ongoing item carries the record's id under `courseId` and its join link, and has no `course_id` field |
| `StudentDashboardApi.OngoingCourses` | backend/app.py:675-684 | one item per record, in record order |
| `StudentDashboardApi.BackendAttendancePercent` | backend/app.py:669-672 | 0 for a zero total; otherwise 100 times present over total rounded half to even (`Rounding.RoundHalfEven`), in 0..100 when present is at most total |
| `Rounding.RoundHalfUp` | frontend/src/app/student-dashboard/page.tsx:29 | the result is the integer nearest to the ratio, with a half rounded up |
| `Rounding.RoundHalfEven` | backend/app.py:672 | away from ties it equals half-up rounding; on a tie it is the even neighbour |
| `Rounding.TieIsHalfway` | backend/app.py:672 | a tie is exactly a ratio lying halfway between two integers |
| `Rounding.PercentInRange` | backend/app.py:672 | a part no larger than the whole gives a percentage in 0..100 under both roundings |
| `LearningPath.ElapsedMinutes` | frontend/src/app/learning-path/page.tsx:67-69 | the whole minutes between start and end, rounded down, also for a negative span |
| `LearningPath.Item` | frontend/src/app/learning-path/page.tsx:270-280 | a stored value as read into a URL; a missing key reads as "null" |
| `LearningPath.PendingMinutes` | frontend/src/app/learning-path/page.tsx:63-69 | there are minutes exactly when the stored start parses as a number, and then they are the whole minutes elapsed since it |
| `LearningPath.Focus` | frontend/src/app/learning-path/page.tsx:58-86 | without student, active course or start time nothing happens; a PUT is sent exactly when the elapsed minutes are positive, for the stored student and course with exactly the pending minutes, and then the start key and the active course are removed and nothing else changes; otherwise the store is unchanged |
| `LearningPath.Blur` | frontend/src/app/learning-path/page.tsx:155-160 | with an active course, its start key is set to a value that parses back to now and every other key is unchanged; without one the store is unchanged |
| `LearningPath.OpenSession` | frontend/src/app/learning-path/page.tsx:269-291 | the active course and its start key are set, the start parsing back to now; every other key is unchanged; one 1-minute PUT is sent |
| `LearningPath.Open` | frontend/src/app/learning-path/page.tsx:269-291 | on this page one course id keys the session, its start key reads back as the current time, every other storage key is kept, and the 1-minute PUT names the same id |
| `LearningPath.FocusEndsSession` | frontend/src/app/learning-path/page.tsx:82-85 | after a reported focus, a second focus reports nothing |
| `LearningPath.BlurThenFocus` | frontend/src/app/learning-path/page.tsx:155-160 | leaving at one time and returning at another reports exactly the whole minutes between them |
| `LearningPath.OpenThenFocus` | frontend/src/app/learning-path/page.tsx:269-291 | opening a course and returning reports the whole minutes since the opening, for that course |
| `LearningPath.OpenSupersedes` | frontend/src/app/learning-path/page.tsx:274-275 | opening a second course replaces the first as the active one; the first's start key stays behind |
| `LearningPath.FocusReportIsAccepted` | frontend/src/app/learning-path/page.tsx:71-77 | the backend never rejects a focus report's duration as non-positive |
| `LearningPath.PairMinutes` | backend/app.py:616-641 | the minutes on the pair's record, 0 without one |
| `LearningPath.AcceptedPutAddsMinutes` | backend/app.py:616-643 | with one record per pair, an accepted PUT adds exactly its minutes to the pair and keeps one record per pair |
| `LearningPath.VisitAddsUp` | frontend/src/app/learning-path/page.tsx:269-291 | a visit adds 1 plus the elapsed whole minutes to the course's record |
| `LearningPath.LogMinutes` | frontend/src/app/learning-path/page.tsx:108-109 | an absent log counts 0 minutes |
| `LearningPath.ReduceMatchesTotal` | frontend/src/app/learning-path/page.tsx:108-109 | the page's reduce over a record's log equals the backend's total of that log |
| `LearningPath.PathShowsTotal` | frontend/src/app/learning-path/page.tsx:101-110 | a list item shows its record's total minutes |
| `LearningPath.FilteredPaths` | frontend/src/app/learning-path/page.tsx:53-55 | an order-preserving subsequence holding exactly the courses with a title containing the term, case ignored |
| `LearningPath.EmptySearchKeepsTitled` | frontend/src/app/learning-path/page.tsx:53-55 | an empty search keeps exactly the courses with a title |
| `LearningPath.BrowserTab.OnFocus` | frontend/src/app/learning-path/page.tsx:58-86 | the tab's storage and sent requests become those of `Focus`; no link is opened |
| `LearningPath.BrowserTab.OnBlur` | frontend/src/app/learning-path/page.tsx:155-160 | the tab's storage becomes that of `Blur`; nothing is sent or opened |
| `LearningPath.BrowserTab.OpenCourse` | frontend/src/app/learning-path/page.tsx:269-291 | the tab's storage and sent requests become those of `Open`, and the join link is opened whatever became of the PUT |
| `StudentDashboardPage.Field` | frontend/src/app/student-dashboard/page.tsx:56-73 | a missing field reads as "undefined" |
| `StudentDashboardPage.GoToCourse` | frontend/src/app/student-dashboard/page.tsx:51-74 | the session is keyed by the item's `course_id`, with a start key reading back as the current time and every other storage key kept, and the 1-minute PUT names its `courseId` |
| `StudentDashboardPage.GoToCourseLosesReturnVisit` | frontend/src/app/student-dashboard/page.tsx:56-62 | on a backend item, the opening PUT names the course but the next focus reports the visit for "undefined" |
| `StudentDashboardPage.FocusAfterOpenSession` | frontend/src/app/student-dashboard/page.tsx:56-57 | a focus after an opening reports for the key the session was opened under |
| `StudentDashboardPage.ReturnVisitRejected` | backend/app.py:640-641 | minutes sent for "undefined" get a 404 and change nothing |
| `StudentDashboardPage.GoToCourseFixed` | frontend/src/app/student-dashboard/page.tsx:51-74 | with `courseId` used for both, the active course, its start key (reading back as the current time) and the 1-minute PUT name the same course, every other storage key kept |
| `StudentDashboardPage.FixedVisitAddsUp` | frontend/src/app/student-dashboard/page.tsx:51-74 | fixed, a visit from the dashboard adds 1 plus the elapsed whole minutes to the course's record |
| `StudentDashboardPage.AttendancePercentAsWritten` | frontend/src/app/student-dashboard/page.tsx:29 | for a non-zero total, the percentage rounded half up |
| `StudentDashboardPage.ZeroTotalIsNotANumber` | frontend/src/app/student-dashboard/page.tsx:29 | a zero total shows a non-finite number, NaN for 0 of 0, where the backend reports 0 |
| `StudentDashboardPage.AttendancePercent` | frontend/src/app/student-dashboard/page.tsx:29 | 0 for a zero total; otherwise the page's own value, in 0..100 when present is at most total |
| `StudentDashboardPage.PercentAgreesOffTies` | frontend/src/app/student-dashboard/page.tsx:29 | the page and the backend agree except on exact halves |
| `StudentDashboardPage.OnGoToCourse` | frontend/src/app/student-dashboard/page.tsx:51-74 | the tab's storage and sent requests become those of `GoToCourse`, and the item's join link is opened |
| `CoursesPage.Normalize` | frontend/src/app/courses/page.tsx:44-47 | the institute comes from the legacy column if that is non-empty, else from the field itself if non-empty, else ""; every other field is copied |
| `CoursesPage.NormalizeIdempotent` | frontend/src/app/courses/page.tsx:44-47 | normalising twice is normalising once |
| `CoursesPage.ReceivedCourses` | frontend/src/app/courses/page.tsx:43-53 | a list body gives every item normalised, in order; any other body leaves the list empty |
| `CoursesPage.NormalizeKeepsTitles` | frontend/src/app/courses/page.tsx:44-47 | normalising keeps every title |
| `CoursesPage.FilteredCourses` | frontend/src/app/courses/page.tsx:65-74 | a course without a title makes the filter fail; otherwise an order-preserving subsequence holding exactly the courses whose title contains the term, case ignored, and whose status matches, each kept as many times as it occurs |
| `CoursesPage.AllAndEmptyShowEverything` | frontend/src/app/courses/page.tsx:66-68 | status "all" with an empty term shows every course, in order |
| `CoursesPage.UnknownStatusShowsNothing` | frontend/src/app/courses/page.tsx:67-71 | a status other than all, active, completed and upcoming shows nothing |
| `CoursesPage.ActiveAndCompleted` | frontend/src/app/courses/page.tsx:69-70 | "active" shows only new courses and "completed" only reruns |
| `DashboardPage.DatasetFor` | frontend/src/app/dashboard/page.tsx:61 | a known region gives its dataset, any other gives "india"; the result is always one of the four datasets |
| `DashboardPage.CategoryLabels` | frontend/src/app/dashboard/page.tsx:67-81 | a chart without labels gets an empty label map |
| `DashboardPage.CategoryOf` | frontend/src/app/dashboard/page.tsx:83 | the label when there is a non-empty one, else the key |
| `DashboardPage.FormatData` | frontend/src/app/dashboard/page.tsx:80-86 | one row per entry, in entry order, named by its label or its key, with the entry's counts; a missing object gives no rows |
| `DashboardPage.LabelsInjective` | frontend/src/app/dashboard/page.tsx:67-78 | no two keys of a chart share a label |
| `DashboardPage.LabelledCategoriesDistinct` | frontend/src/app/dashboard/page.tsx:80-86 | when every key has a label, no two rows share a category |
| `DashboardPage.UnlabelledKeepsKeys` | frontend/src/app/dashboard/page.tsx:81-83 | a chart without labels names each row by its key |
| `DashboardPage.FilteredData` | frontend/src/app/dashboard/page.tsx:88-90 | an order-preserving subsequence holding exactly the pathways of the selected category |
| `DashboardPage.Categories` | frontend/src/app/dashboard/page.tsx:93-95 | each category of the pathways exactly once, in order of first appearance |
| `DashboardPage.ListedIffShown` | frontend/src/app/dashboard/page.tsx:88-95 | a category is listed exactly when selecting it shows some pathway |
| `DashboardPage.TopFeatures` | frontend/src/app/dashboard/page.tsx:112-115 | one feature per name, trimmed, scored 10 minus its position |
| `DashboardPage.TopFeaturesDescend` | frontend/src/app/dashboard/page.tsx:112-115 | scores fall by exactly one from each feature to the next and strictly decrease |
| `DashboardPage.BackendNamesShownAsSent` | frontend/src/app/dashboard/page.tsx:112-115 | the backend's names are shown as sent, in its order |
| `DashboardPage.ApplyReport` | frontend/src/app/dashboard/page.tsx:106-122 | a body with a feature list sets the report id and the ranked features; a failure, or a body whose feature list is missing, clears both |
| `DashboardPage.FailureClearsReport` | frontend/src/app/dashboard/page.tsx:119-122 | a failed request leaves no report and no features |
| `PerformanceAnalyticsPage.AddEntries` | frontend/src/app/performance-analytics/page.tsx:78-84 | the record's total becomes its log's minutes, and each bucket is added to its day's running sum |
| `Common.AddPair` | frontend/src/app/performance-analytics/page.tsx:82-83 | adding one pair to a running tally keeps it exact: every key's value is the sum of its pairs so far, and keys are in first-appearance order |
| `PerformanceAnalyticsPage.AggregateActivity` | frontend/src/app/performance-analytics/page.tsx:71-87 | the course map is the per-title sum of the records' totals and the date map the per-day sum of every bucket, each key in order of first appearance |
| `PerformanceAnalyticsPage.CourseProgress` | frontend/src/app/performance-analytics/page.tsx:89-92 | one row per distinct title in first-appearance order, holding that title's minutes; the rows add up to every minute logged |
| `PerformanceAnalyticsPage.ActiveDays` | frontend/src/app/performance-analytics/page.tsx:94-97 | the days with buckets, each once, strictly ascending |
| `PerformanceAnalyticsPage.DailyProgress` | frontend/src/app/performance-analytics/page.tsx:94-97 | one labelled row per active day, ascending, holding the day's minutes across courses; the rows add up to every minute logged |
| `PerformanceAnalyticsPage.DayRowsTotal` | frontend/src/app/performance-analytics/page.tsx:94-97 | the rows of the active days add up to every minute logged |
| `PerformanceAnalyticsPage.DateMapRows` | frontend/src/app/performance-analytics/page.tsx:78-97 | the day map the loops fill, listed in ascending day order, is the one defined from the records: each active day once, with its minutes across all courses |
| `PerformanceAnalyticsPage.ActiveStudyDays` | frontend/src/app/performance-analytics/page.tsx:110-122 | the metric is the number of distinct day labels against the month's length: at most the number of rows, at least 1 when there is a row, and equal to the number of rows when the labels differ |
| `PerformanceAnalyticsPage.ActiveDaysMatchBackend` | frontend/src/app/performance-analytics/page.tsx:110-119 | when labels tell days apart, the page counts as many active days as the backend's fallback counts present days |
| `PerformanceAnalyticsPage.ChartsAgree` | frontend/src/app/performance-analytics/page.tsx:71-97 | the course chart and the daily chart add up to the same minutes |
| `PerformanceAnalyticsPage.ChartRows` | frontend/src/app/performance-analytics/page.tsx:71-97 | the rows listed from the filled maps are the course chart and the daily chart |
| `PerformanceAnalyticsPage.LogsOf` | frontend/src/app/performance-analytics/page.tsx:74 | an absent log list counts as no records |
| `PerformanceAnalyticsPage.PerformanceAnalyticsView.FetchData` | frontend/src/app/performance-analytics/page.tsx:62-123 | an error body changes nothing; otherwise both course charts and the daily chart are set, and the metric list is `MetricsAfter`: the active-study-days metric when there is a day, the previous list when there is none |
| `Text.SplitJoin` | backend/app.py:58 | splitting a separator-joined list of separator-free pieces gives the pieces back |
| `Text.TrimIdempotent` | frontend/src/app/dashboard/page.tsx:113 | trimming twice is trimming once |
| `Text.ParseIntRoundTrip` | frontend/src/app/learning-path/page.tsx:67 | a stored timestamp parses back to itself |
| `Common.DedupeFirstAppearance` | frontend/src/app/dashboard/page.tsx:93-95 | deduplication lists elements in the order of their first appearance |
| `Common.GroupBy` | frontend/src/app/performance-analytics/page.tsx:89-92 | one row per distinct key in first-appearance order with its sum; the rows add up to the total grouped |
| `Common.RowsTotal` | backend/app.py:499-506 | a finished running group-by's rows add up to the total grouped |

## Left out

- Mongo, Flask routing, `jsonify`, HTTP transport and the pages' rendering are left out. The collections are sequences of records and the handlers are functions or methods over them.
- ObjectId validity is left out. An id that is not a valid ObjectId makes the backend answer 500, but ids here are opaque strings.
- Clock access is left out. `Date.now()`, `datetime.utcnow()`, today's midnight and the month's length are parameters, and dates are abstract ordered integers.
- Date labels are a parameter of the performance-analytics page. Their locale formatting is left out, and so is the sort's re-parse of those labels.
  - The daily rows are modelled in ascending day order, which is the order the comparator aims for.
  - Re-parsing an "en-IN" label can give an invalid or different date, so the real order depends on the engine.
- Floating point is left out. Ratios are exact and rounded with the rules of `Math.round` and Python's `round`. The backend's float conversion of scores and the dropout rate are not modelled.
- Text handling is ASCII-only. Case folding covers ASCII letters only, and trimming removes only the ASCII whitespace that JavaScript's `trim()` and Python's `strip()` agree on; Python's `strip()` also removes the separators \x1c to \x1f, which the model keeps.
- `ParseInt` reads an optional sign and then leading decimal digits. Leading whitespace and hex prefixes are not modelled.
- `UpdateActivity` takes the duration as an optional integer. Python's `int(...)` truncating a float, and the 500 answer for a value that is not a number, are not modelled.
- Object key order is simplified. `Object.entries` lists integer-like keys first, and Flask may sort JSON keys. Entries are modelled in insertion order.
- DashboardPage.FormatData: does not model a `category` field inside an entry's value overriding the label, because the spread comes after the label.
- DashboardPage.DatasetFor: does not model prototype keys such as "constructor" resolving through the object's prototype.
- DashboardPage.ApplyReport: the loading flag is left out, as is the early return when the backend URL is not configured.
- Mongo's `$sort` is assumed stable for equal scores. `Recommendation.Ranked` keeps catalogue order among ties, but the database promises no order there.
- Concurrency is left out. Interleavings between the opening PUT and a later focus PUT, and unload without a flush, are not sequential logic.
- StudentDashboardApi.OngoingCourse: leaves out the `lastAccessed` date and the "Untitled" default title, since records always carry a title here.
- Other backend endpoints are left out. These are `update_daily_progress_from_activity`, login and register (including the duplicate-email 409), model prediction and the ML notebook, report HTML, and the course listing.
- `handleAddToPath` on the learning-path page is left out. It is a POST of the course's fields, whose backend side is `ActivityLog.AddActivity`.
- The risk-score fetch of the performance-analytics page is left out (floating point, model output).

## Findings

| source | as written | input that shows it | evidently intended | confidence | as-written member | corrected member |
|---|---|---|---|---|---|---|
| frontend/src/app/student-dashboard/page.tsx:56-62 | "Go to Course" keys the session with `course.course_id` but sends the PUT to `course.courseId`; backend items carry only `courseId` | an ongoing item `{courseId: "c1", ...}`: the session is stored under "undefined", so the next focus on the learning-path page sends the visit's minutes for course "undefined", which the backend answers 404 | use `courseId` for both, as the learning-path page uses one id | not executed | `StudentDashboardPage.GoToCourse` | `StudentDashboardPage.GoToCourseFixed` |
| frontend/src/app/student-dashboard/page.tsx:29 | the attendance percentage divides by the total with no zero guard | attendance `{present: 0, total: 0}` shows "NaN% Present"; a non-zero present over zero total shows Infinity | 0 for a zero total, as the backend computes (backend/app.py:672) | not executed | `StudentDashboardPage.AttendancePercentAsWritten` | `StudentDashboardPage.AttendancePercent` |
