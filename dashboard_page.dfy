/** The region dashboard page: which dataset a region reads, the rows of
    the demographic charts, the solution pathways of one category, the list
    of categories, and the ranked top features of the latest report. */
module DashboardPage {
  import opened Common
  import opened Text
  import opened LatestReport

  // ----- the dataset of a region -----

  /** `datasetMap`: the four regions of the selector and their datasets. */
  const DatasetMap: map<string, string> :=
    map["All India" := "india", "Maharashtra" := "maharashtra",
        "Karnataka" := "karnataka", "Tamil Nadu" := "tamil_nadu"]

  const DefaultDataset: string := "india"

  /** The dataset of the selected region, and
      "india" for a region the map does not know. */
  function DatasetFor(state: string): (d: string)
    ensures state in DatasetMap ==> d == DatasetMap[state]
    ensures state !in DatasetMap ==> d == DefaultDataset
    ensures d in DatasetMap.Values
  {
    if state in DatasetMap && DatasetMap[state] != "" then DatasetMap[state]
    else
      assert DatasetMap["All India"] == DefaultDataset;
      DefaultDataset
  }

  // ----- chart rows -----

  /** `categoryLabels`: the display label of each key, per chart. The age
      bands are shown with an en dash. */
  function CategoryLabels(chart: string): (labels: map<string, string>)
    ensures chart != "gender" && chart != "debtor" && chart != "tuition" && chart != "age" ==> labels == map[]
  {
    if chart == "gender" then map["0" := "Female", "1" := "Male"]
    else if chart == "debtor" then map["0" := "No Debt", "1" := "Has Debt"]
    else if chart == "tuition" then map["0" := "Not Paid", "1" := "Paid"]
    else if chart == "age" then
      map["18-22" := "18–22", "23-26" := "23–26", "27-30" := "27–30", "31+" := "31+", "<18" := "<18"]
    else map[]
  }

  /** `labels[key] || key`. */
  function CategoryOf(labels: map<string, string>, key: string): (c: string)
    ensures key in labels && labels[key] != "" ==> c == labels[key]
    ensures !(key in labels && labels[key] != "") ==> c == key
  {
    if key in labels && labels[key] != "" then labels[key] else key
  }

  /** One chart row: its category and the counts it carries. */
  datatype ChartRow = ChartRow(category: string, counts: map<string, int>)

  /** `formatData`: one row per entry of the object, in entry order, named by
      the chart's label for the key, or by the key itself when there is no
      label; a missing object gives no rows. */
  function FormatData(data: Option<seq<(string, map<string, int>)>>, chart: string): (rows: seq<ChartRow>)
    ensures data.None? ==> rows == []
    ensures data.Some? ==>
              |rows| == |data.value| &&
              forall i :: 0 <= i < |rows| ==>
                rows[i] == ChartRow(CategoryOf(CategoryLabels(chart), data.value[i].0), data.value[i].1)
  {
    if data.None? then []
    else
      var entries := data.value;
      seq(|entries|, i requires 0 <= i < |entries| =>
            ChartRow(CategoryOf(CategoryLabels(chart), entries[i].0), entries[i].1))
  }

  /** The keys of an object are distinct. */
  predicate DistinctKeys(entries: seq<(string, map<string, int>)>) {
    forall i, j :: 0 <= i < j < |entries| ==> entries[i].0 != entries[j].0
  }

  /** Each chart's labels are all different. */
  lemma LabelsInjective(chart: string, k1: string, k2: string)
    requires k1 in CategoryLabels(chart) && k2 in CategoryLabels(chart) && k1 != k2
    ensures CategoryLabels(chart)[k1] != CategoryLabels(chart)[k2]
  {
  }

  /** When every key of the object has a label, no two bars share a
      category. */
  lemma {:induction false} LabelledCategoriesDistinct(entries: seq<(string, map<string, int>)>, chart: string)
    requires DistinctKeys(entries)
    requires forall i :: 0 <= i < |entries| ==> entries[i].0 in CategoryLabels(chart)
    ensures var rows := FormatData(Some(entries), chart);
            forall i, j :: 0 <= i < j < |rows| ==> rows[i].category != rows[j].category
  {
    var rows := FormatData(Some(entries), chart);
    forall i, j | 0 <= i < j < |rows| ensures rows[i].category != rows[j].category {
      LabelsInjective(chart, entries[i].0, entries[j].0);
    }
  }

  /** A chart without labels names each bar by its key. */
  lemma UnlabelledKeepsKeys(entries: seq<(string, map<string, int>)>, chart: string)
    requires CategoryLabels(chart) == map[]
    ensures var rows := FormatData(Some(entries), chart);
            forall i :: 0 <= i < |rows| ==> rows[i].category == entries[i].0
  {
  }

  // ----- solution pathways -----

  /** A solution pathway, with the fields the page filters and shows. */
  datatype Pathway = Pathway(id: string, category: string, title: string)

  /** `filteredData`: the pathways of the selected category, in order. */
  function FilteredData(pathways: seq<Pathway>, selected: string): (r: seq<Pathway>)
    ensures IsSubsequence(r, pathways)
    ensures forall p :: p in r <==> p in pathways && p.category == selected
  {
    Filter(pathways, (p: Pathway) => p.category == selected)
  }

  function CategoryColumn(pathways: seq<Pathway>): (cs: seq<string>)
    ensures |cs| == |pathways| && forall i :: 0 <= i < |pathways| ==> cs[i] == pathways[i].category
  {
    seq(|pathways|, i requires 0 <= i < |pathways| => pathways[i].category)
  }

  /** The category list: each
      category once, in order of first appearance. */
  function Categories(pathways: seq<Pathway>): (cs: seq<string>)
    ensures Distinct(cs)
    ensures forall c :: c in cs <==> exists i :: 0 <= i < |pathways| && pathways[i].category == c
    ensures forall c :: c in cs <==> c in CategoryColumn(pathways)
    ensures forall i, j :: 0 <= i < j < |cs| ==>
              IndexOf(CategoryColumn(pathways), cs[i]) < IndexOf(CategoryColumn(pathways), cs[j])
  {
    var column := CategoryColumn(pathways);
    forall i, j | 0 <= i < j < |Dedupe(column)|
      ensures IndexOf(column, Dedupe(column)[i]) < IndexOf(column, Dedupe(column)[j])
    {
      DedupeFirstAppearance(column, i, j);
    }
    Dedupe(column)
  }

  /** A category is listed exactly when choosing it shows some pathway. */
  lemma {:induction false} ListedIffShown(pathways: seq<Pathway>, c: string)
    ensures c in Categories(pathways) <==> FilteredData(pathways, c) != []
  {
    if c in Categories(pathways) {
      var i :| 0 <= i < |pathways| && pathways[i].category == c;
      assert pathways[i] in FilteredData(pathways, c);
    }
    if FilteredData(pathways, c) != [] {
      var p := FilteredData(pathways, c)[0];
      assert p in pathways;
      var i :| 0 <= i < |pathways| && pathways[i] == p;
    }
  }

  // ----- top features -----

  /** One ranked feature: its name and its importance score. */
  datatype Feature = Feature(name: string, value: int)

  /** The ranked features:
      one feature per name, trimmed, scored 10 for the first and one less
      for each next. */
  function TopFeatures(names: seq<string>): (fs: seq<Feature>)
    ensures |fs| == |names|
    ensures forall i :: 0 <= i < |fs| ==> fs[i].name == Trim(names[i]) && fs[i].value == 10 - i
  {
    seq(|names|, i requires 0 <= i < |names| => Feature(Trim(names[i]), 10 - i))
  }

  /** The scores fall by exactly one from each feature to the next, so they
      are strictly decreasing. */
  lemma TopFeaturesDescend(names: seq<string>)
    ensures var fs := TopFeatures(names);
            (forall i :: 0 <= i < |fs| - 1 ==> fs[i].value == fs[i + 1].value + 1) &&
            (forall i, j :: 0 <= i < j < |fs| ==> fs[i].value > fs[j].value)
  {
  }

  /** The names the backend sends are already trimmed, so the page shows
      them as sent, in the backend's order. */
  lemma BackendNamesShownAsSent(topFeatures: string)
    ensures var names := TopFeaturesList(topFeatures);
            var fs := TopFeatures(names);
            |fs| == |names| && forall i :: 0 <= i < |fs| ==> fs[i].name == names[i]
  {
    var names := TopFeaturesList(topFeatures);
    forall i | 0 <= i < |names| ensures Trim(names[i]) == names[i] {
      if topFeatures != "" {
        TrimIdempotent(Split(topFeatures, ',')[i]);
      }
    }
  }

  // ----- the latest report -----

  /** What the latest-report request ends in: a body with a report id and,
      possibly, a `top_features` list, or a failure (an error status or no
      answer). */
  datatype ReportResponse = ReportOk(reportId: string, topFeatures: Option<seq<string>>) | ReportFailed

  /** The page's report state. */
  datatype ReportState = ReportState(reportId: Option<string>, topFeatures: seq<Feature>)

  /** The `.then`/`.catch` of the request: a body with a feature list sets
      the report id and the ranked features; a failure, or a body without a
      feature list (whose `.map` throws into the `.catch`), clears both. */
  function ApplyReport(response: ReportResponse): (s: ReportState)
    ensures response.ReportFailed? ==> s == ReportState(None, [])
    ensures response.ReportOk? && response.topFeatures.None? ==> s == ReportState(None, [])
    ensures response.ReportOk? && response.topFeatures.Some? ==>
              s.reportId == Some(response.reportId) && s.topFeatures == TopFeatures(response.topFeatures.value)
  {
    match response
    case ReportFailed => ReportState(None, [])
    case ReportOk(id, features) =>
      if features.None? then ReportState(None, []) else ReportState(Some(id), TopFeatures(features.value))
  }

  /** A failed request always leaves the page with no report and no
      features, whatever it showed before. */
  lemma FailureClearsReport(response: ReportResponse)
    requires response.ReportFailed?
    ensures ApplyReport(response).reportId.None? && |ApplyReport(response).topFeatures| == 0
  {
  }
}
